/**
 The encrypted byte stream as plain mathematics: what a peer puts on the wire for a list of
 plaintext chunks, and the one-shot parser that the resumable reader has to agree with.
 */
module Wire {
  import opened Bytes

  const NOISE_TAG_SIZE: nat := 16
  const MAX_PLAINTEXT_CHUNK: nat := 32 * 1024
  const MAX_CIPHERTEXT_FRAME: nat := MAX_PLAINTEXT_CHUNK + NOISE_TAG_SIZE
  /** Largest Noise message, section 3 of the Noise Protocol Framework. */
  const MAX_NOISE_MESSAGE: nat := 65_535
  /** The reserved nonce of section 5.1 of the Noise Protocol Framework; it is never used. */
  const MAX_NONCE: nat := 0xFFFF_FFFF_FFFF_FFFF

  /** One direction of a transport state: the AEAD with its key, indexed by the message counter. */
  datatype Cipher = Cipher(seal: (nat, seq<byte>) -> seq<byte>, unseal: (nat, seq<byte>) -> Option<seq<byte>>)

  /** What the model assumes of the AEAD: a fixed-size tag, and opening inverts sealing. */
  ghost predicate Lawful(c: Cipher) {
    forall n: nat, p: seq<byte> {:trigger c.seal(n, p)} ::
      |p| + NOISE_TAG_SIZE <= MAX_NOISE_MESSAGE ==>
        |c.seal(n, p)| == |p| + NOISE_TAG_SIZE && c.unseal(n, c.seal(n, p)) == Some(p)
  }

  /** A transport state refuses the reserved nonce and messages shorter than a tag. */
  function Unseal(c: Cipher, n: nat, text: seq<byte>): Option<seq<byte>> {
    if n >= MAX_NONCE || |text| < NOISE_TAG_SIZE then None else c.unseal(n, text)
  }

  /** Whatever was sealed at a counter that may be used opens there, the empty plaintext included. */
  lemma SealedOpens(c: Cipher, n: nat, p: seq<byte>)
    requires Lawful(c) && n < MAX_NONCE && |p| + NOISE_TAG_SIZE <= MAX_NOISE_MESSAGE
    ensures Unseal(c, n, c.seal(n, p)) == Some(p)
  {
  }

  predicate ValidLength(length: nat) {
    0 < length <= MAX_CIPHERTEXT_FRAME
  }

  /** A plaintext chunk as `poll_write` cuts them. */
  predicate IsChunk(p: seq<byte>) {
    0 < |p| <= MAX_PLAINTEXT_CHUNK
  }

  ghost predicate AllChunks(chunks: seq<seq<byte>>) {
    forall i :: 0 <= i < |chunks| ==> IsChunk(chunks[i])
  }

  /** The frame of one chunk: ciphertext length, then ciphertext. */
  ghost function Frame(c: Cipher, n: nat, p: seq<byte>): seq<byte>
    requires Lawful(c) && IsChunk(p)
  {
    ToU32(|c.seal(n, p)|) + c.seal(n, p)
  }

  /** Everything the peer sends for `chunks`, starting at counter `n`. */
  ghost function Encode(c: Cipher, n: nat, chunks: seq<seq<byte>>): seq<byte>
    requires Lawful(c) && AllChunks(chunks)
    decreases |chunks|
  {
    if chunks == [] then [] else Frame(c, n, chunks[0]) + Encode(c, n + 1, chunks[1..])
  }

  /** A whole frame is at the front of `wire`. */
  predicate HasFrame(wire: seq<byte>) {
    |wire| >= 4 && ValidLength(FromU32(wire[..4])) && |wire| >= 4 + FromU32(wire[..4])
  }

  /** A header is there, but no frame may have that length. */
  predicate BadHeader(wire: seq<byte>) {
    |wire| >= 4 && !ValidLength(FromU32(wire[..4]))
  }

  function FrameSize(wire: seq<byte>): nat
    requires HasFrame(wire)
  {
    4 + FromU32(wire[..4])
  }

  /** `plain` decrypted so far, the next counter, unconsumed bytes, and frames that failed to open. */
  datatype Parsed = Parsed(plain: seq<byte>, nonce: nat, rest: seq<byte>, failures: nat)

  /** The one-shot reader: consume whole frames greedily, skipping those that do not open. */
  function Parse(c: Cipher, n: nat, wire: seq<byte>): Parsed
    decreases |wire|
  {
    if !HasFrame(wire) then
      Parsed([], n, wire, 0)
    else
      var k := FrameSize(wire);
      match Unseal(c, n, wire[4..k])
      case None =>
        var r := Parse(c, n, wire[k..]);
        r.(failures := r.failures + 1)
      case Some(p) =>
        var r := Parse(c, n + 1, wire[k..]);
        r.(plain := p + r.plain)
  }

  /** Parsing can stop anywhere and resume from what is left over. */
  ghost function Resume(c: Cipher, p: Parsed, more: seq<byte>): Parsed {
    var q := Parse(c, p.nonce, p.rest + more);
    Parsed(p.plain + q.plain, q.nonce, q.rest, p.failures + q.failures)
  }

  lemma {:induction false} ParseAppend(c: Cipher, n: nat, a: seq<byte>, b: seq<byte>)
    ensures Parse(c, n, a + b) == Resume(c, Parse(c, n, a), b)
    decreases |a|
  {
    hide ValidLength;
    hide Unseal;
    if HasFrame(a) {
      var k := FrameSize(a);
      assert (a + b)[..4] == a[..4];
      assert (a + b)[4..k] == a[4..k];
      assert (a + b)[k..] == a[k..] + b;
      match Unseal(c, n, a[4..k])
      case None =>
        ParseAppend(c, n, a[k..], b);
      case Some(p) =>
        ParseAppend(c, n + 1, a[k..], b);
        var r := Parse(c, n + 1, a[k..]);
        var q := Parse(c, r.nonce, r.rest + b);
        assert p + (r.plain + q.plain) == p + r.plain + q.plain;
    } else {
      assert Parse(c, n, a) == Parsed([], n, a, 0);
      var q := Parse(c, n, a + b);
      assert [] + q.plain == q.plain;
    }
  }

  lemma FrameShape(c: Cipher, n: nat, p: seq<byte>)
    requires Lawful(c) && IsChunk(p)
    ensures var f := Frame(c, n, p);
            HasFrame(f) && FrameSize(f) == |f| == |p| + NOISE_TAG_SIZE + 4 && f[4..] == c.seal(n, p)
            && (n < MAX_NONCE ==> Unseal(c, n, f[4..]) == Some(p))
  {
    U32RoundTrip(|c.seal(n, p)|);
    var f := Frame(c, n, p);
    assert f[..4] == ToU32(|c.seal(n, p)|);
  }

  lemma {:induction false} EncodeSnoc(c: Cipher, n: nat, chunks: seq<seq<byte>>, p: seq<byte>)
    requires Lawful(c) && AllChunks(chunks) && IsChunk(p)
    ensures AllChunks(chunks + [p])
    ensures Encode(c, n, chunks + [p]) == Encode(c, n, chunks) + Frame(c, n + |chunks|, p)
    decreases |chunks|
  {
    hide Frame;
    hide IsChunk;
    if chunks == [] {
      assert [] + [p] == [p];
      assert Encode(c, n + 1, [p][1..]) == [];
    } else {
      EncodeSnoc(c, n + 1, chunks[1..], p);
      assert (chunks + [p])[1..] == chunks[1..] + [p] && (chunks + [p])[0] == chunks[0];
    }
  }

  /** Round trip of the one-shot codec. */
  lemma {:induction false} ParseEncode(c: Cipher, n: nat, chunks: seq<seq<byte>>)
    requires Lawful(c) && AllChunks(chunks) && n + |chunks| <= MAX_NONCE
    ensures Parse(c, n, Encode(c, n, chunks)) == Parsed(Concat(chunks), n + |chunks|, [], 0)
    decreases |chunks|
  {
    if chunks != [] {
      var wire := Encode(c, n, chunks);
      var f := Frame(c, n, chunks[0]);
      FrameShape(c, n, chunks[0]);
      assert wire[..4] == f[..4];
      assert wire[4..|f|] == f[4..];
      assert wire[|f|..] == Encode(c, n + 1, chunks[1..]);
      ParseEncode(c, n + 1, chunks[1..]);
    }
  }

  /**
   A cut wire never misleads: whatever prefix of an honest wire has arrived, every frame in it opened,
   no bad length was seen, and the plaintext is a prefix of what was written.
   */
  lemma HonestPrefix(c: Cipher, chunks: seq<seq<byte>>, wire: seq<byte>)
    requires Lawful(c) && AllChunks(chunks) && |chunks| <= MAX_NONCE
    requires wire <= Encode(c, 0, chunks)
    ensures var p := Parse(c, 0, wire);
            p.failures == 0 && p.plain <= Concat(chunks) && !BadHeader(p.rest)
            && (wire == Encode(c, 0, chunks) ==> p == Parsed(Concat(chunks), |chunks|, [], 0))
  {
    var all := Encode(c, 0, chunks);
    ParseEncode(c, 0, chunks);
    PrefixSplit(wire, all);
    ParseAppend(c, 0, wire, all[|wire|..]);
    var rest := Parse(c, 0, wire).rest;
    assert |rest| >= 4 ==> (rest + all[|wire|..])[..4] == rest[..4];
  }

  /** Stepping the parser by one whole frame at the end of an already consumed prefix. */
  lemma ParseOneMore(c: Cipher, consumed: seq<byte>, frame: seq<byte>)
    requires Parse(c, 0, consumed).rest == []
    requires HasFrame(frame) && |frame| == FrameSize(frame)
    ensures var p := Parse(c, 0, consumed);
            Parse(c, 0, consumed + frame) ==
            match Unseal(c, p.nonce, frame[4..])
            case None => p.(failures := p.failures + 1)
            case Some(text) => Parsed(p.plain + text, p.nonce + 1, [], p.failures)
  {
    var p := Parse(c, 0, consumed);
    ParseAppend(c, 0, consumed, frame);
    assert p.rest + frame == frame;
    ParseOne(c, p.nonce, frame);
  }

  lemma ParseOne(c: Cipher, n: nat, frame: seq<byte>)
    requires HasFrame(frame) && |frame| == FrameSize(frame)
    ensures Parse(c, n, frame) ==
            match Unseal(c, n, frame[4..])
            case None => Parsed([], n, [], 1)
            case Some(text) => Parsed(text, n + 1, [], 0)
  {
    var k := FrameSize(frame);
    assert frame[4..k] == frame[4..];
    assert frame[k..] == [];
    assert Parse(c, n, frame[k..]) == Parsed([], n, [], 0);
    assert Parse(c, n + 1, frame[k..]) == Parsed([], n + 1, [], 0);
  }

  // A concrete instance: the assumptions on the AEAD can be met.

  function ToyMask(n: nat): byte {
    (n % 256) as byte
  }

  function ToyRotate(n: nat, p: seq<byte>): (r: seq<byte>)
    ensures |r| == |p|
  {
    seq(|p|, i requires 0 <= i < |p| => ((p[i] as int + ToyMask(n) as int) % 256) as byte)
  }

  function ToyUnrotate(n: nat, p: seq<byte>): (r: seq<byte>)
    ensures |r| == |p|
  {
    seq(|p|, i requires 0 <= i < |p| => ((p[i] as int + 256 - ToyMask(n) as int) % 256) as byte)
  }

  function ToyTag(n: nat): (t: seq<byte>)
    ensures |t| == NOISE_TAG_SIZE
  {
    seq(NOISE_TAG_SIZE, i => ToyMask(n))
  }

  /** A rotation cipher whose tag repeats the counter: useless in practice, lawful in form. */
  function ToyCipher(): Cipher {
    Cipher(
      (n: nat, p: seq<byte>) => ToyRotate(n, p) + ToyTag(n),
      (n: nat, t: seq<byte>) =>
        if |t| >= NOISE_TAG_SIZE && t[|t| - NOISE_TAG_SIZE..] == ToyTag(n)
        then Some(ToyUnrotate(n, t[..|t| - NOISE_TAG_SIZE]))
        else None)
  }

  lemma ToyCipherIsLawful()
    ensures Lawful(ToyCipher())
  {
    var c := ToyCipher();
    forall n: nat, p: seq<byte>
      ensures |c.seal(n, p)| == |p| + NOISE_TAG_SIZE && c.unseal(n, c.seal(n, p)) == Some(p)
    {
      var t := c.seal(n, p);
      assert t == ToyRotate(n, p) + ToyTag(n);
      assert t[|p|..] == ToyTag(n) && t[..|p|] == ToyRotate(n, p);
      var q := ToyUnrotate(n, ToyRotate(n, p));
      forall i | 0 <= i < |p|
        ensures q[i] == p[i]
      {
        ToyByte(p[i] as int, ToyMask(n) as int);
      }
      assert q == p;
    }
  }

  lemma ToyByte(x: int, m: int)
    requires 0 <= x < 256 && 0 <= m < 256
    ensures ((x + m) % 256 + 256 - m) % 256 == x
  {
    if x + m < 256 {
      assert (x + m) % 256 == x + m;
    } else {
      assert (x + m) % 256 == x + m - 256;
    }
  }
}
