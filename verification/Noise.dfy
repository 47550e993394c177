/**
 The resumable encrypted stream of src/noise.rs. The transport below it may return any number of
 bytes, nothing, or an error on every poll; what survives between polls is in the fields.
 */
module Noise {
  import opened Bytes
  import opened Wire

  function Min(a: nat, b: nat): (m: nat)
    ensures m <= a && m <= b && (m == a || m == b)
  {
    if a <= b then a else b
  }

  /** The plaintext one frame takes from a write buffer. */
  function FirstChunk(buffer: seq<byte>): (chunk: seq<byte>)
    ensures chunk <= buffer && (chunk == buffer || |chunk| == MAX_PLAINTEXT_CHUNK)
    ensures |chunk| <= MAX_PLAINTEXT_CHUNK && (buffer != [] ==> IsChunk(chunk))
  {
    buffer[..Min(|buffer|, MAX_PLAINTEXT_CHUNK)]
  }

  /** The bytes the frame of a chunk takes on the wire. */
  function FrameCost(chunk: seq<byte>): nat {
    |chunk| + NOISE_TAG_SIZE + 4
  }

  /** Write `bytes` into a buffer from position `start` on. */
  function Overwrite(buffer: seq<byte>, start: nat, bytes: seq<byte>): (r: seq<byte>)
    requires start + |bytes| <= |buffer|
    ensures |r| == |buffer| && r[..start + |bytes|] == buffer[..start] + bytes
  {
    buffer[..start] + bytes + buffer[start + |bytes|..]
  }

  /** Bytes put behind those already in a buffer come behind them in the stream. */
  lemma BodyGrows(consumed: seq<byte>, head: seq<byte>, body: seq<byte>, start: nat, bytes: seq<byte>, coming: seq<byte>)
    requires start + |bytes| <= |body|
    ensures var now := Overwrite(body, start, bytes)[..start + |bytes|];
      && consumed + (head + body[..start]) + bytes == consumed + (head + now)
      && head + body[..start] + (bytes + coming) == head + now + coming
  {
    var kept, now := body[..start], Overwrite(body, start, bytes)[..start + |bytes|];
    hide Overwrite;
    assert now == kept + bytes;
    Regathered(consumed, head, kept, bytes);
    Regathered(head, kept, bytes, coming);
  }

  lemma Regathered(a: seq<byte>, b: seq<byte>, c: seq<byte>, d: seq<byte>)
    ensures a + (b + c) + d == a + (b + (c + d)) && a + b + (c + d) == a + (b + c) + d
  {
  }

  // ---------------------------------------------------------------- the transport underneath

  /** What the transport does on a coming read poll: offer up to `k` bytes, withhold, or fail. */
  datatype ReadEvent = Arrive(k: nat) | Stall(k: nat) | ReadFault(code: nat)

  /** A transport that brings at least one byte on every read, for as long as bytes are there. */
  ghost predicate Bringing(events: seq<ReadEvent>) {
    forall i :: 0 <= i < |events| ==> events[i].Arrive? && events[i].k > 0
  }

  /**
   What it does on a coming write or flush poll: take up to `k` bytes, claim a count, even an impossible one,
   withhold, or fail.
   */
  datatype WriteEvent = Take(k: nat) | Claim(k: nat) | Block | WriteFault(code: nat)

  /** A transport that takes at least one byte on every write. */
  ghost predicate Willing(events: seq<WriteEvent>) {
    forall i :: 0 <= i < |events| ==> events[i].Take? && events[i].k > 0
  }

  datatype InnerPoll = InnerPending | InnerReady | InnerFault(code: nat)

  /**
   The transport (a TCP socket in the program). Its behaviour is an arbitrary script of events, so a
   statement about all scripts is a statement about all fragmentations; an exhausted script is Pending.
   */
  class InnerStream {
    var readEvents: seq<ReadEvent>
    var writeEvents: seq<WriteEvent>
    var incoming: seq<byte>   // sent by the far end, not yet read
    var closed: bool          // the far end has closed its direction
    var shut: bool            // this end has shut down its direction
    ghost var flushed: nat    // how much of `sent` the last flush has pushed out
    var sent: seq<byte>       // put on the wire by this end
    ghost var offered: seq<byte>   // everything the far end has sent so far
    ghost var received: seq<byte>
    ghost var lastRead: InnerPoll
    ghost var lastWrite: InnerPoll
    ghost var lastOffer: nat       // how many bytes the last write offered
    ghost var lastClaim: nat       // how many the transport then claimed to have taken

    constructor (readScript: seq<ReadEvent>, writeScript: seq<WriteEvent>, wire: seq<byte>, ended: bool)
      ensures readEvents == readScript && writeEvents == writeScript && incoming == wire && closed == ended
      ensures received == [] && sent == [] && !shut && flushed == 0 && offered == wire && Whole()
    {
      readEvents, writeEvents, incoming, closed, shut := readScript, writeScript, wire, ended, false;
      offered, received, sent, lastRead, lastWrite := wire, [], [], InnerPending, InnerPending;
      lastOffer, lastClaim, flushed := 1, 1, 0;
    }

    /** Nothing sent to this end is lost or reordered before it is read. */
    ghost predicate Whole()
      reads this
    {
      offered == received + incoming
    }

    /** More bytes of the far end arrive. */
    method Deliver(bytes: seq<byte>)
      requires Whole()
      modifies this`incoming, this`offered
      ensures Whole() && offered == old(offered) + bytes && incoming == old(incoming) + bytes
    {
      incoming, offered := incoming + bytes, offered + bytes;
    }

    ghost predicate AtEnd()
      reads this
    {
      closed && incoming == []
    }

    /** Read polls to come bring all that has been sent. */
    ghost predicate Flowing()
      reads this
    {
      Bringing(readEvents) && |readEvents| >= |incoming|
    }

    method PollRead(space: nat) returns (poll: InnerPoll, bytes: seq<byte>)
      requires space > 0 && Whole()
      modifies this`readEvents, this`incoming, this`received, this`lastRead
      ensures Whole() && |bytes| <= space && received == old(received) + bytes && old(incoming) == bytes + incoming
      ensures poll.InnerReady? && bytes == [] ==> AtEnd()
      ensures poll.InnerFault? ==> bytes == []
      ensures lastRead == poll
      ensures |readEvents| < |old(readEvents)| || (poll.InnerPending? && readEvents == [])
      ensures old(Flowing()) ==> Flowing() && (old(incoming) != [] ==> poll.InnerReady? && bytes != [])
    {
      poll, bytes := InnerPending, [];
      if readEvents != [] {
        var event := readEvents[0];
        readEvents := readEvents[1..];
        match event {
          case ReadFault(code) => poll := InnerFault(code);
          case Stall(k) => bytes := incoming[..Min(k, Min(space, |incoming|))];
          case Arrive(k) =>
            bytes := incoming[..Min(k, Min(space, |incoming|))];
            poll := if bytes != [] || (incoming == [] && closed) then InnerReady else InnerPending;
        }
        received, incoming := received + bytes, incoming[|bytes|..];
      }
      lastRead := poll;
    }

    /** `written` is what the transport claims; an impossible claim leaves nothing on the wire. */
    method PollWrite(bytes: seq<byte>) returns (poll: InnerPoll, written: nat)
      modifies this`writeEvents, this`sent, this`lastWrite, this`lastOffer, this`lastClaim
      ensures sent == old(sent) + (if poll.InnerReady? && written <= |bytes| then bytes[..written] else [])
      ensures lastWrite == poll && lastOffer == |bytes| && lastClaim == written
      ensures writeEvents == if old(writeEvents) == [] then [] else old(writeEvents)[1..]
      ensures |writeEvents| < |old(writeEvents)| || (poll.InnerPending? && writeEvents == [])
      ensures old(writeEvents) != [] ==> match old(writeEvents)[0]
              case Take(k) => poll.InnerReady? && written == Min(k, |bytes|)
              case Claim(k) => poll.InnerReady? && written == k
              case Block => poll.InnerPending?
              case WriteFault(code) => poll == InnerFault(code)
    {
      poll, written := InnerPending, 0;
      if writeEvents != [] {
        var event := writeEvents[0];
        writeEvents := writeEvents[1..];
        match event {
          case WriteFault(code) => poll := InnerFault(code);
          case Block =>
          case Claim(k) => poll, written := InnerReady, k;
          case Take(k) => poll, written := InnerReady, Min(k, |bytes|);
        }
        if poll.InnerReady? && written <= |bytes| {
          sent := sent + bytes[..written];
        }
      }
      lastWrite, lastOffer, lastClaim := poll, |bytes|, written;
    }

    /** Flush, or shutdown when `closing`. */
    method PollFlush(closing: bool) returns (poll: InnerPoll)
      modifies this`writeEvents, this`lastWrite, this`shut, this`flushed
      ensures lastWrite == poll
      ensures flushed == if poll.InnerReady? then |sent| else old(flushed)
      ensures shut == (old(shut) || (closing && poll.InnerReady?))
      ensures writeEvents == if old(writeEvents) == [] then [] else old(writeEvents)[1..]
      ensures old(writeEvents) != [] ==> match old(writeEvents)[0]
              case WriteFault(code) => poll == InnerFault(code)
              case Block => poll.InnerPending?
              case _ => poll.InnerReady?
      ensures old(writeEvents) == [] ==> poll.InnerPending?
    {
      poll := InnerPending;
      if writeEvents != [] {
        var event := writeEvents[0];
        writeEvents := writeEvents[1..];
        poll := match event
          case WriteFault(code) => InnerFault(code)
          case Block => InnerPending
          case _ => InnerReady;
      }
      shut := shut || (closing && poll.InnerReady?);
      flushed := if poll.InnerReady? then |sent| else flushed;
      lastWrite := poll;
    }
  }

  // ---------------------------------------------------------------- the encrypted stream

  datatype IoError =
    | WriteZero
    | InvalidWriteLength
    | NoiseFailure
    | InvalidFrameLength(length: nat)
    | EofInHeader
    | EofInBody
    | Transport(code: nat)

  datatype ReadPoll = ReadPending | ReadReady(bytes: seq<byte>) | ReadFailed(error: IoError)
  datatype WritePoll = WritePending | WriteReady(count: nat) | WriteFailed(error: IoError)
  datatype DrainPoll = DrainPending | DrainReady(count: Option<nat>) | DrainFailed(error: IoError)

  datatype PendingWrite = PendingWrite(wire: seq<byte>, offset: nat, plaintextLen: nat)

  /** The one-shot parser consumes `consumed` without remainder. */
  ghost predicate ParsedAs(c: Cipher, consumed: seq<byte>, plain: seq<byte>, nonce: nat, failures: nat) {
    Parse(c, 0, consumed) == Parsed(plain, nonce, [], failures)
  }

  lemma ParsedStep(c: Cipher, consumed: seq<byte>, plain: seq<byte>, nonce: nat, failures: nat, frame: seq<byte>)
    requires ParsedAs(c, consumed, plain, nonce, failures)
    requires HasFrame(frame) && |frame| == FrameSize(frame)
    ensures match Unseal(c, nonce, frame[4..])
            case None => ParsedAs(c, consumed + frame, plain, nonce, failures + 1)
            case Some(text) => ParsedAs(c, consumed + frame, plain + text, nonce + 1, failures)
  {
    ParseOneMore(c, consumed, frame);
  }

  /** What a half-read header and a half-read body may look like. */
  ghost predicate BufferedAs(header: seq<byte>, headerFilled: nat, body: seq<byte>, bodyFilled: nat)
    requires |header| == 4
  {
    && headerFilled <= 4
    && bodyFilled <= |body|
    && (headerFilled < 4 ==> body == [])
    && (body != [] ==> ValidLength(FromU32(header)) && |body| == FromU32(header))
  }

  /** The bytes on the wire are the frames of `chunks`, up to the sent part of the frame in flight. */
  ghost predicate SentAs(c: Cipher, chunks: seq<seq<byte>>, nonce: nat, pending: Option<PendingWrite>, sent: seq<byte>) {
    && Lawful(c)
    && AllChunks(chunks)
    && nonce == |chunks| <= MAX_NONCE
    && match pending
       case None => sent == Encode(c, 0, chunks)
       case Some(p) =>
         && chunks != []
         && p.wire == Frame(c, |chunks| - 1, chunks[|chunks| - 1])
         && p.plaintextLen == |chunks[|chunks| - 1]|
         && p.offset <= |p.wire|
         && sent == Encode(c, 0, chunks[..|chunks| - 1]) + p.wire[..p.offset]
  }

  class NoiseStream {
    const inner: InnerStream
    const sendCipher: Cipher
    const recvCipher: Cipher
    const readHeader: array<byte>
    var sendNonce: nat
    var recvNonce: nat
    var readHeaderFilled: nat
    var readBody: seq<byte>
    var readBodyFilled: nat
    var plaintext: seq<byte>
    var plaintextOffset: nat
    var pendingWrite: Option<PendingWrite>

    ghost var consumed: seq<byte>        // raw bytes of the frames taken in whole so far
    ghost var delivered: seq<byte>       // plaintext handed to readers so far
    ghost var failures: nat              // frames that did not open
    ghost var chunks: seq<seq<byte>>     // plaintext chunks sealed so far

    /** Received bytes that do not yet make a whole frame. */
    ghost function Partial(): seq<byte>
      requires readHeader.Length == 4 && readHeaderFilled <= 4 && readBodyFilled <= |readBody|
      reads this, readHeader
    {
      readHeader[..readHeaderFilled] + readBody[..readBodyFilled]
    }

    /** What is left to be taken apart of all that the far end has sent. */
    ghost function Coming(): seq<byte>
      requires readHeader.Length == 4 && readHeaderFilled <= 4 && readBodyFilled <= |readBody|
      reads this, inner, readHeader
    {
      Partial() + inner.incoming
    }

    /** Everything readers will ever get of what the far end has sent so far. */
    ghost function AllPlain(): seq<byte>
      reads inner`offered
    {
      Parse(recvCipher, 0, inner.offered).plain
    }

    /** How many frames of it do not open. */
    ghost function AllFailures(): nat
      reads inner`offered
    {
      Parse(recvCipher, 0, inner.offered).failures
    }

    /** There is plaintext to come, and no frame that does not open. */
    ghost predicate Expecting()
      reads this, inner
    {
      |delivered| < |AllPlain()| && AllFailures() == failures
    }

    /** Decrypted bytes no reader has asked for yet. */
    ghost function Leftover(): seq<byte>
      requires plaintextOffset <= |plaintext|
      reads this
    {
      plaintext[plaintextOffset..]
    }

    ghost predicate ReadValid()
      reads this, inner, readHeader
    {
      && readHeader.Length == 4
      && plaintextOffset <= |plaintext|
      && ParsedAs(recvCipher, consumed, delivered + Leftover(), recvNonce, failures)
      && BufferedAs(readHeader[..], readHeaderFilled, readBody, readBodyFilled)
      && inner.received == consumed + Partial() && inner.Whole()
    }

    ghost predicate WriteValid()
      reads this, inner
    {
      SentAs(sendCipher, chunks, sendNonce, pendingWrite, inner.sent)
    }

    ghost predicate Valid()
      reads this, inner, readHeader
    {
      ReadValid() && WriteValid()
    }

    /** The plaintext of the frame still being sent. */
    ghost function InFlight(): seq<byte>
      reads this
    {
      if pendingWrite.Some? && chunks != [] then chunks[|chunks| - 1] else []
    }

    /** The bytes of the frame in flight that are not on the wire yet. */
    ghost function WireLeft(): nat
      reads this
    {
      match pendingWrite
      case Some(p) => if p.offset <= |p.wire| then |p.wire| - p.offset else 0
      case None => 0
    }

    /** How many bytes the next write poll with this buffer has to bring onto the wire to report a count. */
    ghost function NextCost(buffer: seq<byte>): nat
      reads this
    {
      if pendingWrite.Some? then WireLeft() else if buffer == [] then 0 else FrameCost(FirstChunk(buffer))
    }

    /** The plaintext whose frames are on the wire in full. */
    ghost function Accepted(): seq<byte>
      reads this
    {
      Concat(if pendingWrite.Some? && chunks != [] then chunks[..|chunks| - 1] else chunks)
    }

    /** A complete header announces a length no frame may have. */
    ghost predicate Jammed()
      requires readHeader.Length == 4
      reads this, readHeader
    {
      readHeaderFilled == 4 && readBody == [] && !ValidLength(FromU32(readHeader[..]))
    }

    twostate predicate ReadHalfUnchanged()
      reads this, inner, readHeader
    {
      && readHeader[..] == old(readHeader[..]) && readHeaderFilled == old(readHeaderFilled)
      && readBody == old(readBody) && readBodyFilled == old(readBodyFilled)
      && plaintext == old(plaintext) && plaintextOffset == old(plaintextOffset)
      && recvNonce == old(recvNonce) && consumed == old(consumed) && delivered == old(delivered)
      && failures == old(failures)
      && inner.incoming == old(inner.incoming) && inner.received == old(inner.received)
      && inner.readEvents == old(inner.readEvents)
    }

    constructor (transport: InnerStream, outbound: Cipher, inbound: Cipher)
      requires Lawful(outbound)
      requires transport.sent == [] && transport.received == [] && transport.Whole()
      ensures Valid() && fresh(readHeader)
      ensures inner == transport && sendCipher == outbound && recvCipher == inbound
      ensures chunks == [] && delivered == [] && Leftover() == [] && pendingWrite == None
    {
      inner, sendCipher, recvCipher := transport, outbound, inbound;
      readHeader := new byte[4](_ => 0);
      sendNonce, recvNonce := 0, 0;
      readHeaderFilled, readBody, readBodyFilled := 0, [], 0;
      plaintext, plaintextOffset, pendingWrite := [], 0, None;
      consumed, delivered, failures, chunks := [], [], 0, [];
    }

    // -------------------------------------------------------------- reading

    /** What the transport wrote through the read buffer lands behind the bytes already there. */
    method StoreHeader(start: nat, bytes: seq<byte>)
      requires start + |bytes| <= readHeader.Length
      modifies readHeader
      ensures readHeader[..start + |bytes|] == old(readHeader[..start]) + bytes
    {
      forall i | 0 <= i < |bytes| {
        readHeader[start + i] := bytes[i];
      }
    }

    /** One transport poll straight into the unfilled part of the header; the caller advances the fill mark. */
    method PollIntoHeader() returns (poll: InnerPoll, count: nat)
      requires ReadValid() && readHeaderFilled < 4
      modifies readHeader, inner`readEvents, inner`incoming, inner`received, inner`lastRead
      ensures readHeaderFilled + count <= 4
      ensures inner.received == consumed + readHeader[..readHeaderFilled + count] && inner.Whole()
      ensures poll.InnerReady? && count == 0 ==> inner.AtEnd()
      ensures poll.InnerFault? ==> count == 0
      ensures inner.lastRead == poll
      ensures |inner.readEvents| < |old(inner.readEvents)| || (poll.InnerPending? && inner.readEvents == [])
      ensures old(inner.Flowing()) ==>
                inner.Flowing() && (old(inner.incoming) != [] ==> poll.InnerReady? && count > 0)
      ensures readHeader[..readHeaderFilled + count] + inner.incoming == old(Coming())
    {
      hide ParsedAs;
      hide Bringing;
      var start := readHeaderFilled;
      var bytes;
      poll, bytes := inner.PollRead(4 - start);
      count := |bytes|;
      StoreHeader(start, bytes);
      assert readHeader[..start + count] == old(readHeader[..start]) + bytes;
      assert old(Coming()) == old(readHeader[..start]) + (bytes + inner.incoming);
    }

    /** The header loop: `None` when all four bytes are there. */
    method FillHeader() returns (stop: Option<ReadPoll>)
      requires ReadValid() && Leftover() == []
      modifies this`readHeaderFilled, readHeader, inner`readEvents, inner`incoming, inner`received, inner`lastRead
      ensures ReadValid()
      ensures old(readHeaderFilled) == 4 ==>
                && stop == None && readHeader[..] == old(readHeader[..])
                && inner.readEvents == old(inner.readEvents) && inner.received == old(inner.received)
                && inner.incoming == old(inner.incoming)
      ensures stop == None ==> readHeaderFilled == 4
      ensures |inner.readEvents| <= |old(inner.readEvents)|
      ensures stop == None && old(readHeaderFilled) < 4 ==> |inner.readEvents| < |old(inner.readEvents)|
      ensures old(inner.Flowing()) ==> inner.Flowing() && (|old(Coming())| >= 4 ==> stop == None)
      ensures Coming() == old(Coming())
      ensures stop.Some? ==> match stop.value
              case ReadPending => inner.lastRead == InnerPending
              case ReadReady(bytes) => bytes == [] && readHeaderFilled == 0 && inner.AtEnd()
              case ReadFailed(EofInHeader) => 0 < readHeaderFilled < 4 && inner.AtEnd()
              case ReadFailed(Transport(code)) => inner.lastRead == InnerFault(code)
              case ReadFailed(_) => false
    {
      hide ParsedAs;
      hide InnerStream.Whole;
      hide InnerStream.AtEnd;
      hide InnerStream.Flowing;
      while readHeaderFilled < 4
        invariant ReadValid() && Leftover() == []
        invariant old(readHeaderFilled) == 4 ==>
                    && readHeader[..] == old(readHeader[..])
                    && inner.readEvents == old(inner.readEvents) && inner.received == old(inner.received)
                    && inner.incoming == old(inner.incoming)
        invariant |inner.readEvents| <= |old(inner.readEvents)|
        invariant old(inner.Flowing()) ==> inner.Flowing()
        invariant Coming() == old(Coming())
        invariant readHeaderFilled != old(readHeaderFilled) ==> |inner.readEvents| < |old(inner.readEvents)|
        decreases |inner.readEvents|
      {
        var poll, count := PollIntoHeader();
        match poll {
          case InnerPending =>
            readHeaderFilled := readHeaderFilled + count;
            return Some(ReadPending);
          case InnerFault(code) =>
            return Some(ReadFailed(Transport(code)));
          case InnerReady =>
            if count == 0 {
              if readHeaderFilled == 0 {
                return Some(ReadReady([]));
              }
              return Some(ReadFailed(EofInHeader));
            }
            readHeaderFilled := readHeaderFilled + count;
        }
      }
      stop := None;
    }

    /** One transport poll straight into the unfilled part of the body; the caller advances the fill mark. */
    method PollIntoBody() returns (poll: InnerPoll, count: nat)
      requires ReadValid() && readHeaderFilled == 4 && readBodyFilled < |readBody|
      modifies this`readBody, inner`readEvents, inner`incoming, inner`received, inner`lastRead
      ensures |readBody| == |old(readBody)| && readBodyFilled + count <= |readBody|
      ensures inner.received == consumed + (readHeader[..4] + readBody[..readBodyFilled + count]) && inner.Whole()
      ensures poll.InnerReady? && count == 0 ==> inner.AtEnd()
      ensures poll.InnerFault? ==> count == 0
      ensures inner.lastRead == poll
      ensures |inner.readEvents| < |old(inner.readEvents)| || (poll.InnerPending? && inner.readEvents == [])
      ensures old(inner.Flowing()) ==>
                inner.Flowing() && (old(inner.incoming) != [] ==> poll.InnerReady? && count > 0)
      ensures readHeader[..4] + readBody[..readBodyFilled + count] + inner.incoming == old(Coming())
    {
      hide Bringing;
      hide ParsedAs;
      hide Overwrite;
      var start := readBodyFilled;
      ghost var head, body := readHeader[..4], readBody;
      assert BufferedAs(readHeader[..], readHeaderFilled, readBody, readBodyFilled) && Partial() == head + body[..start];
      hide BufferedAs;
      var bytes;
      poll, bytes := inner.PollRead(|readBody| - start);
      count := |bytes|;
      readBody := Overwrite(readBody, start, bytes);
      BodyGrows(consumed, head, body, start, bytes, inner.incoming);
    }

    /** The body loop: `None` when the frame is complete. */
    method FillBody() returns (stop: Option<ReadPoll>)
      requires ReadValid() && readHeaderFilled == 4 && readBody != []
      modifies this`readBody, this`readBodyFilled, inner`readEvents, inner`incoming, inner`received, inner`lastRead
      ensures ReadValid()
      ensures |readBody| == |old(readBody)|
      ensures |inner.readEvents| <= |old(inner.readEvents)|
      ensures stop == None ==> readBodyFilled == |readBody|
      ensures old(inner.Flowing()) ==> inner.Flowing() && (|old(Coming())| >= 4 + |readBody| ==> stop == None)
      ensures Coming() == old(Coming())
      ensures stop.Some? ==> match stop.value
              case ReadPending => inner.lastRead == InnerPending
              case ReadFailed(EofInBody) => readBodyFilled < |readBody| && inner.AtEnd()
              case ReadFailed(Transport(code)) => inner.lastRead == InnerFault(code)
              case _ => false
    {
      hide ParsedAs;
      hide InnerStream.Whole;
      hide InnerStream.Flowing;
      while readBodyFilled < |readBody|
        invariant ReadValid() && readHeaderFilled == 4
        invariant |readBody| == |old(readBody)|
        invariant |inner.readEvents| <= |old(inner.readEvents)|
        invariant old(inner.Flowing()) ==> inner.Flowing()
        invariant Coming() == old(Coming())
        decreases |inner.readEvents|
      {
        var poll, count := PollIntoBody();
        match poll {
          case InnerPending =>
            readBodyFilled := readBodyFilled + count;
            return Some(ReadPending);
          case InnerFault(code) =>
            return Some(ReadFailed(Transport(code)));
          case InnerReady =>
            if count == 0 {
              return Some(ReadFailed(EofInBody));
            }
            readBodyFilled := readBodyFilled + count;
        }
      }
      stop := None;
    }

    /** Take the completed frame and open it; the counter moves only when it opens. */
    method OpenFrame() returns (ok: bool)
      requires ReadValid() && Leftover() == [] && readHeaderFilled == 4
      requires readBody != [] && readBodyFilled == |readBody|
      modifies this`readHeaderFilled, this`readBody, this`readBodyFilled, this`recvNonce,
               this`plaintext, this`plaintextOffset, this`consumed, this`failures
      ensures ReadValid()
      ensures readHeaderFilled == 0 && consumed == inner.received
      ensures ok ==> failures == old(failures) && recvNonce == old(recvNonce) + 1
                     && Unseal(recvCipher, old(recvNonce), old(readBody)) == Some(Leftover())
      ensures !ok ==> failures == old(failures) + 1 && recvNonce == old(recvNonce) && Leftover() == []
                      && Unseal(recvCipher, old(recvNonce), old(readBody)) == None
    {
      var ciphertext := readBody;
      ghost var frame := readHeader[..] + ciphertext;
      assert frame[..4] == readHeader[..] && frame[4..] == ciphertext;
      ParsedStep(recvCipher, consumed, delivered + Leftover(), recvNonce, failures, frame);
      assert Partial() == frame;
      readBody, readHeaderFilled, readBodyFilled := [], 0, 0;
      consumed := consumed + frame;
      match Unseal(recvCipher, recvNonce, ciphertext) {
        case None =>
          failures := failures + 1;
          ok := false;
        case Some(text) =>
          plaintext, plaintextOffset, recvNonce := text, 0, recvNonce + 1;
          assert delivered + [] + text == delivered + text;
          ok := true;
      }
    }

    /** Hand out decrypted bytes that are already there. */
    method TakePlaintext(remaining: nat) returns (bytes: seq<byte>)
      requires ReadValid() && Leftover() != [] && remaining > 0
      modifies this`plaintext, this`plaintextOffset, this`delivered
      ensures ReadValid()
      ensures bytes == old(Leftover())[..Min(|old(Leftover())|, remaining)] && bytes != []
      ensures delivered == old(delivered) + bytes && old(Leftover()) == bytes + Leftover()
    {
      var available := plaintext[plaintextOffset..];
      var count := Min(|available|, remaining);
      bytes := available[..count];
      plaintextOffset := plaintextOffset + count;
      delivered := delivered + bytes;
      assert available == bytes + plaintext[plaintextOffset..];
      assert delivered + plaintext[plaintextOffset..] == old(delivered) + available;
      if plaintextOffset == |plaintext| {
        plaintext, plaintextOffset := [], 0;
      }
    }

    /** What a poll that ends without plaintext may report, and why. */
    ghost predicate Stopped(poll: ReadPoll)
      requires ReadValid()
      reads this, inner, readHeader
    {
      match poll
      case ReadPending => inner.lastRead == InnerPending
      case ReadReady(bytes) => bytes == [] && inner.AtEnd() && Partial() == []
      case ReadFailed(EofInHeader) => inner.AtEnd() && 0 < |Partial()| < 4
      case ReadFailed(EofInBody) =>
        inner.AtEnd() && readHeaderFilled == 4 && readBodyFilled < FromU32(readHeader[..])
      case ReadFailed(InvalidFrameLength(n)) => Jammed() && n == FromU32(readHeader[..])
      case ReadFailed(Transport(code)) => inner.lastRead == InnerFault(code)
      case ReadFailed(NoiseFailure) => Partial() == []
      case ReadFailed(_) => false
    }

    /** With the header there: room for the body it announces, if a frame may have that length. */
    method MakeRoom() returns (stop: Option<ReadPoll>)
      requires ReadValid() && readHeaderFilled == 4
      modifies this`readBody, this`readBodyFilled
      ensures ReadValid() && Coming() == old(Coming())
      ensures if stop == None then readBody != [] && |readBody| == FromU32(readHeader[..])
              else Jammed() && stop == Some(ReadFailed(InvalidFrameLength(FromU32(readHeader[..]))))
      ensures old(Jammed()) ==> stop.Some?
      ensures HasFrame(Coming()) ==> stop == None && |Coming()| >= 4 + |readBody|
    {
      hide ParsedAs;
      hide FromU32;
      stop := None;
      assert Coming()[..4] == readHeader[..];
      if readBody == [] {
        var length := FromU32(readHeader[..]);
        if length == 0 || length > MAX_CIPHERTEXT_FRAME {
          return Some(ReadFailed(InvalidFrameLength(length)));
        }
        readBody, readBodyFilled := seq(length, _ => 0), 0;
      }
    }

    /** One turn of the read loop: complete one frame and open it, or say why not. */
    method AdvanceFrame() returns (stop: Option<ReadPoll>)
      requires ReadValid() && Leftover() == []
      modifies this`readHeaderFilled, this`readBody, this`readBodyFilled, this`recvNonce, this`plaintext,
               this`plaintextOffset, this`consumed, this`failures, readHeader,
               inner`readEvents, inner`incoming, inner`received, inner`lastRead
      ensures ReadValid()
      ensures stop == None ==> Partial() == [] && failures == old(failures) && readHeaderFilled == 0
      ensures stop == None ==> |inner.readEvents| < |old(inner.readEvents)|
                               || (|inner.readEvents| <= |old(inner.readEvents)| && old(readHeaderFilled) == 4)
      ensures stop.Some? ==> Leftover() == [] && Stopped(stop.value)
      ensures failures == old(failures) + (if stop == Some(ReadFailed(NoiseFailure)) then 1 else 0)
      ensures old(inner.Flowing()) ==>
                inner.Flowing() && (HasFrame(old(Coming())) ==> stop == None || stop == Some(ReadFailed(NoiseFailure)))
      ensures old(Jammed()) ==>
                && stop == Some(ReadFailed(InvalidFrameLength(FromU32(old(readHeader[..])))))
                && Jammed() && readHeader[..] == old(readHeader[..])
                && inner.received == old(inner.received) && inner.incoming == old(inner.incoming)
    {
      hide ParsedAs;
      hide InnerStream.Flowing;
      hide FromU32;
      stop := FillHeader();
      if stop.Some? {
        return;
      }
      stop := MakeRoom();
      if stop.Some? {
        return;
      }
      stop := FillBody();
      if stop.Some? {
        return;
      }
      var ok := OpenFrame();
      if !ok {
        return Some(ReadFailed(NoiseFailure));
      }
    }

    /** Turn the read loop until some plaintext is there, or a turn stops. */
    method AwaitPlaintext() returns (stop: Option<ReadPoll>)
      requires ReadValid()
      modifies this`readHeaderFilled, this`readBody, this`readBodyFilled, this`recvNonce, this`plaintext,
               this`plaintextOffset, this`consumed, this`failures, readHeader,
               inner`readEvents, inner`incoming, inner`received, inner`lastRead
      ensures ReadValid()
      ensures old(Leftover()) != [] ==>
                && stop == None && Leftover() == old(Leftover()) && consumed == old(consumed)
                && inner.received == old(inner.received) && inner.readEvents == old(inner.readEvents)
      ensures stop == None ==> Leftover() != [] && (old(Leftover()) == [] ==> Partial() == [])
      ensures stop.Some? ==> Leftover() == [] && Stopped(stop.value)
      ensures failures == old(failures) + (if stop == Some(ReadFailed(NoiseFailure)) then 1 else 0)
      ensures old(inner.Flowing()) ==> inner.Flowing() && (old(Expecting()) ==> stop == None)
      ensures old(Leftover()) == [] && old(Jammed()) ==>
                && stop == Some(ReadFailed(InvalidFrameLength(FromU32(old(readHeader[..])))))
                && Jammed() && readHeader[..] == old(readHeader[..])
                && inner.received == old(inner.received) && inner.incoming == old(inner.incoming)
    {
      hide ParsedAs;
      hide HasFrame;
      hide InnerStream.Flowing;
      stop := None;
      while plaintextOffset == |plaintext|
        invariant ReadValid() && stop == None && failures == old(failures)
        invariant old(Leftover()) != [] ==>
                    && Leftover() == old(Leftover()) && consumed == old(consumed)
                    && inner.received == old(inner.received) && inner.readEvents == old(inner.readEvents)
        invariant old(Leftover()) == [] ==> Leftover() == [] || Partial() == []
        invariant old(inner.Flowing()) ==> inner.Flowing()
        invariant old(Expecting()) ==> Expecting()
        invariant old(Leftover()) == [] && old(Jammed()) ==>
                    && Jammed() && Leftover() == [] && readHeader[..] == old(readHeader[..])
                    && inner.received == old(inner.received) && inner.incoming == old(inner.incoming)
        decreases |inner.readEvents|, readHeaderFilled
      {
        plaintext, plaintextOffset := [], 0;
        ExpectingHasFrame(this);
        stop := AdvanceFrame();
        if stop.Some? {
          FailuresAreThere(this);
          return;
        }
      }
    }

    /**
     One read poll with room for `remaining` bytes. Whatever it returns, `ReadValid()` says that the
     bytes delivered so far and the leftover are exactly the one-shot parse of the bytes received.
     */
    method PollRead(remaining: nat) returns (poll: ReadPoll)
      requires ReadValid()
      modifies this`readHeaderFilled, this`readBody, this`readBodyFilled, this`recvNonce, this`plaintext,
               this`plaintextOffset, this`consumed, this`failures, this`delivered, readHeader,
               inner`readEvents, inner`incoming, inner`received, inner`lastRead
      ensures ReadValid()
      // what this poll hands out
      ensures delivered == old(delivered) + (if poll.ReadReady? then poll.bytes else [])
      ensures poll.ReadReady? ==> |poll.bytes| <= remaining
      ensures remaining == 0 ==> poll == ReadReady([]) && ReadHalfUnchanged()
      // bytes that are already decrypted go first and the transport is not touched
      ensures remaining > 0 && old(Leftover()) != [] ==>
                && poll == ReadReady(old(Leftover())[..Min(|old(Leftover())|, remaining)])
                && old(Leftover()) == poll.bytes + Leftover()
                && inner.received == old(inner.received) && consumed == old(consumed)
                && inner.readEvents == old(inner.readEvents) && failures == old(failures)
      // otherwise it reads no byte beyond the frame it hands out
      ensures remaining > 0 && old(Leftover()) == [] && poll.ReadReady? ==> Partial() == []
      // without plaintext to hand out, the reason; an empty read is a clean end of stream
      ensures !poll.ReadReady? ==> Leftover() == [] && Stopped(poll)
      ensures remaining > 0 && poll == ReadReady([]) ==> Leftover() == [] && Stopped(poll)
      ensures failures == old(failures) + (if poll == ReadFailed(NoiseFailure) then 1 else 0)
      // when plaintext is to come and the transport brings it, some is handed out
      ensures old(inner.Flowing()) ==>
                inner.Flowing() && (remaining > 0 && old(Expecting()) ==> poll.ReadReady? && poll.bytes != [])
      // an impossible length is reported again on every later poll
      ensures remaining > 0 && old(Leftover()) == [] && old(Jammed()) ==>
                poll == ReadFailed(InvalidFrameLength(FromU32(old(readHeader[..])))) && Jammed()
                && readHeader[..] == old(readHeader[..]) && inner.received == old(inner.received)
                && inner.incoming == old(inner.incoming)
    {
      if remaining == 0 {
        return ReadReady([]);
      }
      var stop := AwaitPlaintext();
      if stop.Some? {
        return stop.value;
      }
      var bytes := TakePlaintext(remaining);
      poll := ReadReady(bytes);
    }

    // -------------------------------------------------------------- writing

    /** What can go wrong on the way out, by what the transport has just done. */
    ghost predicate SendFault(error: IoError)
      reads inner
    {
      match error
      case Transport(code) => inner.lastWrite == InnerFault(code)
      case WriteZero => inner.lastWrite.InnerReady? && inner.lastClaim == 0
      case InvalidWriteLength => inner.lastWrite.InnerReady? && inner.lastClaim > inner.lastOffer
      case _ => false
    }

    /** Push the frame in flight; `DrainReady(Some(n))` when it is out in full. */
    method PollPendingWrite() returns (poll: DrainPoll)
      requires WriteValid()
      modifies this`pendingWrite, inner`writeEvents, inner`sent, inner`lastWrite, inner`lastOffer,
               inner`lastClaim
      ensures WriteValid()
      ensures old(pendingWrite) == None ==> poll == DrainReady(None) && pendingWrite == None
      ensures |inner.writeEvents| <= |old(inner.writeEvents)|
      ensures old(pendingWrite).Some? ==> match poll
              case DrainReady(count) => count == Some(|old(InFlight())|) && pendingWrite == None
              case DrainPending => pendingWrite.Some? && inner.lastWrite == InnerPending
              case DrainFailed(error) =>
                pendingWrite.Some? && SendFault(error) && |inner.writeEvents| < |old(inner.writeEvents)|
      // a transport that takes something on every write takes the whole frame
      ensures Willing(old(inner.writeEvents)) ==>
                && Willing(inner.writeEvents)
                && (|old(inner.writeEvents)| >= old(WireLeft()) ==>
                      poll.DrainReady? && |inner.writeEvents| >= |old(inner.writeEvents)| - old(WireLeft()))
      ensures pendingWrite == None ==> Accepted() == old(Accepted()) + old(InFlight())
      ensures pendingWrite.Some? ==> Accepted() == old(Accepted())
      ensures old(inner.sent) <= inner.sent
    {
      hide Encode;
      hide Concat;
      while true
        invariant WriteValid()
        invariant pendingWrite.Some? <==> old(pendingWrite).Some?
        invariant old(inner.sent) <= inner.sent
        invariant |inner.writeEvents| <= |old(inner.writeEvents)|
        invariant Willing(old(inner.writeEvents)) ==> Willing(inner.writeEvents)
        invariant Willing(old(inner.writeEvents)) ==>
                    |inner.writeEvents| - WireLeft() >= |old(inner.writeEvents)| - old(WireLeft())
        decreases |inner.writeEvents|
      {
        match pendingWrite {
          case None =>
            return DrainReady(None);
          case Some(pending) =>
            if pending.offset == |pending.wire| {
              FinishFrame(pending);
              return DrainReady(Some(pending.plaintextLen));
            }
            var stop := PushBytes(pending);
            if stop.Some? {
              return stop.value;
            }
        }
      }
    }

    /** One write of what is left of the frame in flight; `None` when the transport took something. */
    method PushBytes(pending: PendingWrite) returns (stop: Option<DrainPoll>)
      requires WriteValid() && pendingWrite == Some(pending) && pending.offset < |pending.wire|
      modifies this`pendingWrite, inner`writeEvents, inner`sent, inner`lastWrite, inner`lastOffer, inner`lastClaim
      ensures WriteValid() && pendingWrite.Some? && old(inner.sent) <= inner.sent
      ensures stop == None ==> WireLeft() < old(WireLeft()) && |inner.writeEvents| == |old(inner.writeEvents)| - 1
      ensures stop.Some? ==> match stop.value
              case DrainPending => inner.lastWrite == InnerPending && |inner.writeEvents| <= |old(inner.writeEvents)|
              case DrainFailed(error) => SendFault(error) && |inner.writeEvents| < |old(inner.writeEvents)|
              case DrainReady(_) => false
      ensures Willing(old(inner.writeEvents)) ==>
                Willing(inner.writeEvents) && (old(inner.writeEvents) != [] ==> stop == None)
    {
      hide Encode;
      var result, written := inner.PollWrite(pending.wire[pending.offset..]);
      match result {
        case InnerPending =>
          return Some(DrainPending);
        case InnerFault(code) =>
          return Some(DrainFailed(Transport(code)));
        case InnerReady =>
          if written == 0 {
            return Some(DrainFailed(WriteZero));
          }
          if written > |pending.wire| - pending.offset {
            return Some(DrainFailed(InvalidWriteLength));
          }
          SentMore(sendCipher, chunks, sendNonce, pending, written);
          pendingWrite := Some(pending.(offset := pending.offset + written));
          stop := None;
      }
    }

    /** The frame in flight is on the wire in full. */
    method FinishFrame(pending: PendingWrite)
      requires WriteValid() && pendingWrite == Some(pending) && pending.offset == |pending.wire|
      modifies this`pendingWrite
      ensures WriteValid() && pendingWrite == None && Accepted() == old(Accepted()) + old(InFlight())
    {
      var last := |chunks| - 1;
      assert chunks == chunks[..last] + [chunks[last]];
      EncodeSnoc(sendCipher, 0, chunks[..last], chunks[last]);
      ConcatSnoc(chunks[..last], chunks[last]);
      pendingWrite := None;
    }

    /** Seal one chunk and make its frame the pending write. */
    method SealChunk(chunk: seq<byte>)
      requires WriteValid() && pendingWrite == None && IsChunk(chunk) && sendNonce < MAX_NONCE
      modifies this`pendingWrite, this`chunks, this`sendNonce
      ensures WriteValid() && pendingWrite.Some? && chunks == old(chunks) + [chunk]
      ensures Accepted() == old(Accepted()) && InFlight() == chunk && WireLeft() == FrameCost(chunk)
    {
      var ciphertext := sendCipher.seal(sendNonce, chunk);
      assert |ciphertext| == |chunk| + NOISE_TAG_SIZE;
      var wire := ToU32(|ciphertext|) + ciphertext;
      chunks, sendNonce := chunks + [chunk], sendNonce + 1;
      pendingWrite := Some(PendingWrite(wire, 0, |chunk|));
      assert chunks[..|chunks| - 1] == old(chunks);
    }

    /** With no frame in flight: seal one chunk off the front of the buffer and start sending it. */
    method SendChunk(buffer: seq<byte>) returns (poll: WritePoll)
      requires WriteValid() && pendingWrite == None && buffer != []
      modifies this`pendingWrite, this`chunks, this`sendNonce, inner`writeEvents, inner`sent, inner`lastWrite, inner`lastOffer,
               inner`lastClaim
      ensures WriteValid() && old(inner.sent) <= inner.sent && |inner.writeEvents| <= |old(inner.writeEvents)|
      ensures chunks == old(chunks) + (if old(sendNonce) == MAX_NONCE then [] else [FirstChunk(buffer)])
      ensures match poll
              case WriteReady(count) =>
                && pendingWrite == None && count == |FirstChunk(buffer)| && old(sendNonce) < MAX_NONCE
                && Accepted() == old(Accepted()) + FirstChunk(buffer)
              case WritePending =>
                && pendingWrite.Some? && InFlight() == FirstChunk(buffer) && Accepted() == old(Accepted())
                && inner.lastWrite == InnerPending
              case WriteFailed(error) =>
                && Accepted() == old(Accepted())
                && if old(sendNonce) == MAX_NONCE then error == NoiseFailure && pendingWrite == None
                   else InFlight() == FirstChunk(buffer) && pendingWrite.Some? && SendFault(error)
                        && |inner.writeEvents| < |old(inner.writeEvents)|
      ensures Willing(old(inner.writeEvents)) ==>
                && Willing(inner.writeEvents)
                && (|old(inner.writeEvents)| >= FrameCost(FirstChunk(buffer)) && old(sendNonce) < MAX_NONCE ==>
                      poll.WriteReady? && |inner.writeEvents| >= |old(inner.writeEvents)| - FrameCost(FirstChunk(buffer)))
    {
      assert sendNonce <= MAX_NONCE;
      hide SentAs;
      hide Willing;
      hide Accepted;
      hide WireLeft;
      hide FrameCost;
      if sendNonce == MAX_NONCE {
        return WriteFailed(NoiseFailure);
      }
      SealChunk(FirstChunk(buffer));
      var drained := PollPendingWrite();
      match drained {
        case DrainPending => poll := WritePending;
        case DrainFailed(error) => poll := WriteFailed(error);
        case DrainReady(Some(count)) => poll := WriteReady(count);
        case DrainReady(None) => assert false;
      }
    }

    /**
     One write poll. A count is reported only when the frame it belongs to is on the wire in full;
     a caller whose poll was Pending gets that count later, so it must come back with the same bytes.
     */
    method PollWrite(buffer: seq<byte>) returns (poll: WritePoll)
      requires WriteValid()
      modifies this`pendingWrite, this`chunks, this`sendNonce, inner`writeEvents, inner`sent, inner`lastWrite, inner`lastOffer,
               inner`lastClaim
      ensures WriteValid() && old(inner.sent) <= inner.sent
      // what gets sealed: nothing while a frame is in flight, else one chunk from the front of the buffer
      ensures chunks == old(chunks) + (if old(pendingWrite).Some? || buffer == [] || old(sendNonce) == MAX_NONCE
                                       then [] else [FirstChunk(buffer)])
      ensures old(sendNonce) <= sendNonce <= old(sendNonce) + (if old(pendingWrite).Some? then 0 else 1)
      ensures |inner.writeEvents| <= |old(inner.writeEvents)|
      // what is reported
      ensures poll.WriteReady? ==>
                && pendingWrite == None
                && poll.count == (if old(pendingWrite).Some? then |old(InFlight())| else |FirstChunk(buffer)|)
      ensures poll.WriteReady? ==> InFlight() == [] && (buffer != [] ==> poll.count > 0)
      ensures poll.WritePending? ==> pendingWrite.Some? && inner.lastWrite == InnerPending
      ensures poll.WriteFailed? ==>
                if poll.error == NoiseFailure then
                  pendingWrite == None && old(pendingWrite) == None && buffer != [] && sendNonce == old(sendNonce) == MAX_NONCE
                else pendingWrite.Some? && SendFault(poll.error) && |inner.writeEvents| < |old(inner.writeEvents)|
      // with nonces left, a transport that takes something on every write takes a whole frame
      ensures Willing(old(inner.writeEvents)) ==>
                && Willing(inner.writeEvents)
                && (|old(inner.writeEvents)| >= old(NextCost(buffer)) && old(pendingWrite.Some? || sendNonce < MAX_NONCE) ==>
                      poll.WriteReady? && |inner.writeEvents| >= |old(inner.writeEvents)| - old(NextCost(buffer)))
      // the retry discipline makes the counts add up, and is itself kept by the retry
      ensures old(InFlight()) <= buffer ==>
                && (poll.WriteReady? ==> poll.count <= |buffer| && Accepted() == old(Accepted()) + buffer[..poll.count])
                && (!poll.WriteReady? ==> Accepted() == old(Accepted()) && InFlight() <= buffer)
    {
      assert pendingWrite.Some? ==> |InFlight()| > 0;
      hide SentAs;
      hide Willing;
      hide FrameCost;
      var drained := PollPendingWrite();
      match drained {
        case DrainPending => return WritePending;
        case DrainFailed(error) => return WriteFailed(error);
        case DrainReady(Some(count)) => return WriteReady(count);
        case DrainReady(None) =>
      }
      if buffer == [] {
        return WriteReady(0);
      }
      poll := SendChunk(buffer);
    }

    /** Flush, or shutdown when `closing`: first the frame in flight, then the transport. */
    method PollFlush(closing: bool) returns (poll: WritePoll)
      requires WriteValid()
      modifies this`pendingWrite, inner`writeEvents, inner`sent, inner`lastWrite, inner`lastOffer,
               inner`lastClaim, inner`shut, inner`flushed
      ensures WriteValid() && chunks == old(chunks) && old(inner.sent) <= inner.sent
      ensures poll.WriteReady? ==>
                && pendingWrite == None && Accepted() == Concat(chunks)
                && inner.sent == Encode(sendCipher, 0, chunks) && inner.flushed == |inner.sent|
      ensures inner.shut == (old(inner.shut) || (closing && poll.WriteReady?))
      ensures !poll.WriteReady? && pendingWrite.Some? ==> Accepted() == old(Accepted())
      ensures old(pendingWrite) == None ==> pendingWrite == None && Accepted() == old(Accepted())
      ensures poll.WritePending? ==> inner.lastWrite == InnerPending
      ensures poll.WriteFailed? ==> SendFault(poll.error) && (!poll.error.Transport? ==> pendingWrite.Some?)
                                    && |inner.writeEvents| < |old(inner.writeEvents)|
      ensures Willing(old(inner.writeEvents)) ==>
                && Willing(inner.writeEvents)
                && (|old(inner.writeEvents)| > old(WireLeft()) ==>
                      poll.WriteReady? && |inner.writeEvents| >= |old(inner.writeEvents)| - old(WireLeft()) - 1)
    {
      hide FrameCost;
      var drained := PollPendingWrite();
      match drained {
        case DrainPending => return WritePending;
        case DrainFailed(error) => return WriteFailed(error);
        case DrainReady(_) =>
      }
      var result := inner.PollFlush(closing);
      poll := match result
        case InnerPending => WritePending
        case InnerFault(code) => WriteFailed(Transport(code))
        case InnerReady => WriteReady(0);
    }
  }

  /** What a write may be broken by, by what the transport has just done or the counter at its end. */
  ghost predicate BrokenBy(stream: NoiseStream, error: IoError)
    reads stream, stream.inner
  {
    if error == NoiseFailure then stream.pendingWrite == None && stream.sendNonce == MAX_NONCE
    else stream.SendFault(error) && (!error.Transport? ==> stream.pendingWrite.Some?)
  }

  /** A frame takes at most this many wire bytes for each byte of plaintext: the byte, the length and the tag. */
  const WIRE_FACTOR: nat := 21

  lemma {:induction false} EncodeSize(c: Cipher, n: nat, chunks: seq<seq<byte>>)
    requires Lawful(c) && AllChunks(chunks)
    ensures |Encode(c, n, chunks)| <= WIRE_FACTOR * |Concat(chunks)|
    decreases |chunks|
  {
    if chunks != [] {
      EncodeSize(c, n + 1, chunks[1..]);
      assert IsChunk(chunks[0]);
      assert |Frame(c, n, chunks[0])| == |chunks[0]| + NOISE_TAG_SIZE + 4;
    }
  }

  /** What the next write has to bring onto the wire, in terms of the count it then reports. */
  lemma NextCostBound(stream: NoiseStream, buffer: seq<byte>)
    requires stream.WriteValid() && stream.InFlight() <= buffer && buffer != []
    ensures var count := if stream.pendingWrite.Some? then |stream.InFlight()| else |FirstChunk(buffer)|;
      1 <= count <= |buffer| && stream.NextCost(buffer) <= WIRE_FACTOR * count <= WIRE_FACTOR * |buffer|
  {
    var count := if stream.pendingWrite.Some? then |stream.InFlight()| else |FirstChunk(buffer)|;
    assert stream.pendingWrite.Some? ==> IsChunk(stream.chunks[|stream.chunks| - 1]);
    assert stream.NextCost(buffer) <= count + NOISE_TAG_SIZE + 4;
  }

  /** What has been delivered and what is decrypted are the front of all that will ever be delivered. */
  lemma AllPlainSplits(stream: NoiseStream)
    requires stream.ReadValid()
    ensures var p := Parse(stream.recvCipher, stream.recvNonce, stream.Coming());
      && stream.AllPlain() == stream.delivered + stream.Leftover() + p.plain
      && stream.AllFailures() == stream.failures + p.failures
  {
    ParseAppend(stream.recvCipher, 0, stream.consumed, stream.Coming());
    assert stream.inner.offered == stream.consumed + stream.Coming();
    assert [] + stream.Coming() == stream.Coming();
  }

  lemma ExpectingHasFrame(stream: NoiseStream)
    requires stream.ReadValid() && stream.Leftover() == []
    ensures stream.Expecting() ==> HasFrame(stream.Coming())
  {
    AllPlainSplits(stream);
    assert stream.delivered + [] + [] == stream.delivered;
  }

  lemma FailuresAreThere(stream: NoiseStream)
    requires stream.ReadValid()
    ensures stream.failures <= stream.AllFailures()
  {
    AllPlainSplits(stream);
  }

  lemma SentMore(c: Cipher, chunks: seq<seq<byte>>, nonce: nat, pending: PendingWrite, written: nat)
    requires Lawful(c) && AllChunks(chunks) && chunks != []
    requires pending.offset + written <= |pending.wire|
    ensures var base := Encode(c, 0, chunks[..|chunks| - 1]);
            base + pending.wire[..pending.offset] + pending.wire[pending.offset..][..written]
            == base + pending.wire[..pending.offset + written]
  {
    assert pending.wire[..pending.offset] + pending.wire[pending.offset..][..written]
        == pending.wire[..pending.offset + written];
  }

  // ---------------------------------------------------------------- two ends of one wire

  /** `reader` decrypts what `writer` encrypts, and has received a prefix of what `writer` has sent. */
  ghost predicate Connected(writer: NoiseStream, reader: NoiseStream)
    reads writer, reader, writer.inner, reader.inner
  {
    writer.sendCipher == reader.recvCipher && reader.inner.received <= writer.inner.sent
  }

  lemma SentIsPrefix(writer: NoiseStream)
    requires writer.WriteValid()
    ensures writer.inner.sent <= Encode(writer.sendCipher, 0, writer.chunks)
    ensures writer.Accepted() + writer.InFlight() == Concat(writer.chunks)
  {
    var chunks := writer.chunks;
    if writer.pendingWrite.Some? {
      var last := |chunks| - 1;
      assert chunks == chunks[..last] + [chunks[last]];
      EncodeSnoc(writer.sendCipher, 0, chunks[..last], chunks[last]);
      ConcatSnoc(chunks[..last], chunks[last]);
    }
  }

  /** The heart of the end-to-end statement, on values. */
  lemma ParsedPrefixOfEncoded(c: Cipher, chunks: seq<seq<byte>>, consumed: seq<byte>, partial: seq<byte>,
                              plain: seq<byte>, nonce: nat, failures: nat)
    requires Lawful(c) && AllChunks(chunks) && |chunks| <= MAX_NONCE
    requires ParsedAs(c, consumed, plain, nonce, failures)
    requires consumed + partial <= Encode(c, 0, chunks)
    ensures failures == 0 && plain <= Concat(chunks) && !BadHeader(partial)
    ensures consumed + partial == Encode(c, 0, chunks) && !HasFrame(partial) ==> plain == Concat(chunks) && partial == []
  {
    var received := consumed + partial;
    assert consumed <= received;
    HonestPrefix(c, chunks, consumed);
    HonestPrefix(c, chunks, received);
    ParseAppend(c, 0, consumed, partial);
    assert [] + partial == partial;
    if !HasFrame(partial) {
      assert Parse(c, nonce, partial) == Parsed([], nonce, partial, 0);
      assert plain + [] == plain;
    }
  }

  /**
   End to end, whatever the fragmentation in either direction: no frame fails to open, the reader never
   jams, the bytes delivered are a prefix of the bytes written, and once everything sent has been
   received and opened they are exactly the bytes written.
   */
  lemma DeliveredIsPrefixOfWritten(writer: NoiseStream, reader: NoiseStream)
    requires writer.WriteValid() && reader.ReadValid() && Connected(writer, reader)
    ensures reader.failures == 0 && !reader.Jammed()
    ensures reader.delivered + reader.Leftover() <= writer.Accepted() + writer.InFlight()
    ensures writer.pendingWrite == None && reader.inner.received == writer.inner.sent && !HasFrame(reader.Partial()) ==>
              reader.delivered + reader.Leftover() == writer.Accepted() && reader.Partial() == []
  {
    hide Parse;
    hide Encode;
    SentIsPrefix(writer);
    ParsedPrefixOfEncoded(writer.sendCipher, writer.chunks, reader.consumed, reader.Partial(),
                          reader.delivered + reader.Leftover(), reader.recvNonce, reader.failures);
    if reader.readHeaderFilled == 4 && reader.readBody == [] {
      assert reader.Partial() == reader.readHeader[..];
      assert reader.Partial()[..4] == reader.Partial();
    }
  }
}
