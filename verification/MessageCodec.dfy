/**
 A concrete serialisation of the control messages, so that the laws the frame layer asks of one can be met.
 It is not JSON: texts and lists carry a mark before every element and another one behind the last.
 */
module MessageCodec {
  import opened Bytes
  import opened Messages
  import Frames

  datatype Read<T> = Read(value: T, rest: seq<byte>)

  const MORE: byte := 1
  const STOP: byte := 0

  predicate ScalarValue(n: nat) {
    n < 0xD800 || 0xE000 <= n < 0x11_0000
  }

  function PutChar(c: char): seq<byte> {
    ToU32(c as nat)
  }

  function GetChar(b: seq<byte>): Option<Read<char>> {
    if |b| >= 4 && ScalarValue(FromU32(b[..4])) then Some(Read(FromU32(b[..4]) as char, b[4..])) else None
  }

  lemma CharRoundTrip(c: char, rest: seq<byte>)
    ensures GetChar(PutChar(c) + rest) == Some(Read(c, rest))
  {
    U32RoundTrip(c as nat);
    assert (PutChar(c) + rest)[..4] == PutChar(c) && (PutChar(c) + rest)[4..] == rest;
  }

  function PutText(s: string): seq<byte> {
    if s == "" then [STOP] else [MORE] + (PutChar(s[0]) + PutText(s[1..]))
  }

  function GetText(b: seq<byte>): Option<Read<string>>
    decreases |b|
  {
    if b == [] then None
    else if b[0] == STOP then Some(Read("", b[1..]))
    else
      match GetChar(b[1..])
      case None => None
      case Some(c) => (
        match GetText(c.rest)
        case None => None
        case Some(s) => Some(Read([c.value] + s.value, s.rest)))
  }

  lemma {:induction false} TextRoundTrip(s: string, rest: seq<byte>)
    ensures GetText(PutText(s) + rest) == Some(Read(s, rest))
  {
    if s == "" {
      assert ([STOP] + rest)[1..] == rest;
    } else {
      TextRoundTrip(s[1..], rest);
      var inner := PutText(s[1..]) + rest;
      CharRoundTrip(s[0], inner);
      assert PutText(s) + rest == [MORE] + (PutChar(s[0]) + inner);
      assert ([MORE] + (PutChar(s[0]) + inner))[1..] == PutChar(s[0]) + inner;
      assert [s[0]] + s[1..] == s;
    }
  }

  function PutBytes(s: seq<byte>): seq<byte> {
    if s == [] then [STOP] else [MORE, s[0]] + PutBytes(s[1..])
  }

  function GetBytes(b: seq<byte>): Option<Read<seq<byte>>>
    decreases |b|
  {
    if b == [] then None
    else if b[0] == STOP then Some(Read([], b[1..]))
    else if |b| == 1 then None
    else
      match GetBytes(b[2..])
      case None => None
      case Some(s) => Some(Read([b[1]] + s.value, s.rest))
  }

  lemma {:induction false} BytesRoundTrip(s: seq<byte>, rest: seq<byte>)
    ensures GetBytes(PutBytes(s) + rest) == Some(Read(s, rest))
  {
    if s == [] {
      assert ([STOP] + rest)[1..] == rest;
    } else {
      BytesRoundTrip(s[1..], rest);
      var inner := PutBytes(s[1..]) + rest;
      assert PutBytes(s) + rest == [MORE, s[0]] + inner;
      assert ([MORE, s[0]] + inner)[2..] == inner;
      assert [s[0]] + s[1..] == s;
    }
  }

  function PutTexts(list: seq<string>): seq<byte> {
    if list == [] then [STOP] else [MORE] + (PutText(list[0]) + PutTexts(list[1..]))
  }

  function GetTexts(b: seq<byte>): Option<Read<seq<string>>>
    decreases |b|
  {
    if b == [] then None
    else if b[0] == STOP then Some(Read([], b[1..]))
    else
      match GetText(b[1..])
      case None => None
      case Some(s) =>
        if |s.rest| >= |b| then None
        else
          match GetTexts(s.rest)
          case None => None
          case Some(list) => Some(Read([s.value] + list.value, list.rest))
  }

  lemma {:induction false} TextsRoundTrip(list: seq<string>, rest: seq<byte>)
    ensures GetTexts(PutTexts(list) + rest) == Some(Read(list, rest))
  {
    if list == [] {
      assert ([STOP] + rest)[1..] == rest;
    } else {
      TextsRoundTrip(list[1..], rest);
      var inner := PutTexts(list[1..]) + rest;
      TextRoundTrip(list[0], inner);
      assert PutTexts(list) + rest == [MORE] + (PutText(list[0]) + inner);
      assert ([MORE] + (PutText(list[0]) + inner))[1..] == PutText(list[0]) + inner;
      assert [list[0]] + list[1..] == list;
    }
  }

  /** The devices in some order. */
  ghost function Listed(devices: set<DeviceId>): (list: seq<DeviceId>)
    ensures forall d :: d in list <==> d in devices
  {
    if devices == {} then [] else
      var d :| d in devices;
      [d] + Listed(devices - {d})
  }

  function PutNumber(n: nat): seq<byte> {
    if n == 0 then [STOP] else [MORE] + PutNumber(n - 1)
  }

  function GetNumber(b: seq<byte>): Option<Read<nat>> {
    if b == [] then None
    else if b[0] == STOP then Some(Read(0, b[1..]))
    else
      match GetNumber(b[1..])
      case None => None
      case Some(n) => Some(Read(n.value + 1, n.rest))
  }

  lemma {:induction false} NumberRoundTrip(n: nat, rest: seq<byte>)
    ensures GetNumber(PutNumber(n) + rest) == Some(Read(n, rest))
  {
    if n == 0 {
      assert ([STOP] + rest)[1..] == rest;
    } else {
      NumberRoundTrip(n - 1, rest);
      assert PutNumber(n) + rest == [MORE] + (PutNumber(n - 1) + rest);
      assert ([MORE] + (PutNumber(n - 1) + rest))[1..] == PutNumber(n - 1) + rest;
    }
  }

  /** A message as a kind, numbers, bytes and texts. */
  datatype Record = Record(kind: nat, number: nat, data: seq<byte>, texts: seq<string>)

  function PutRecord(r: Record): seq<byte> {
    PutNumber(r.kind) + (PutNumber(r.number) + (PutBytes(r.data) + PutTexts(r.texts)))
  }

  function GetRecord(b: seq<byte>): Option<Record> {
    match GetNumber(b)
    case None => None
    case Some(kind) => (
      match GetNumber(kind.rest)
      case None => None
      case Some(number) => (
        match GetBytes(number.rest)
        case None => None
        case Some(data) => (
          match GetTexts(data.rest)
          case None => None
          case Some(texts) =>
            if texts.rest == [] then Some(Record(kind.value, number.value, data.value, texts.value)) else None)))
  }

  lemma RecordRoundTrip(r: Record)
    ensures GetRecord(PutRecord(r)) == Some(r)
  {
    TextsRoundTrip(r.texts, []);
    assert PutTexts(r.texts) + [] == PutTexts(r.texts);
    BytesRoundTrip(r.data, PutTexts(r.texts));
    NumberRoundTrip(r.number, PutBytes(r.data) + PutTexts(r.texts));
    NumberRoundTrip(r.kind, PutNumber(r.number) + (PutBytes(r.data) + PutTexts(r.texts)));
  }

  function RoleNumber(role: Role): nat {
    match role case RoleAgent => 0 case RoleAgentSession => 1 case RoleController => 2
  }

  ghost function ToRecord(m: Message): Record {
    match m
    case Hello(version, role, token, None, features) => Record(3 + RoleNumber(role), version, token, features)
    case Hello(version, role, token, Some(id), features) => Record(6 + RoleNumber(role), version, token, [id] + features)
    case HelloOk(features) => Record(9, 0, [], features)
    case SessionAttach(id) => Record(10, 0, [], [id])
    case SessionAccepted(id) => Record(11, 0, [], [id])
    case ListRequest => Record(0, 0, [], [])
    case DeviceList(devices) => Record(12, 0, [], Listed(devices))
    case OpenRequest(target, id) => Record(13, 0, [], [target, id])
    case Open(id) => Record(14, 0, [], [id])
    case Ready(id) => Record(15, 0, [], [id])
    case Failed(id, reason) => Record(16, 0, [], [id, reason])
    case Ping => Record(1, 0, [], [])
    case Pong => Record(2, 0, [], [])
  }

  function NumberedRole(n: nat): Role {
    if n == 0 then RoleAgent else if n == 1 then RoleAgentSession else RoleController
  }

  function FromRecord(r: Record): Option<Message> {
    var texts, count := r.texts, |r.texts|;
    match r.kind
    case 0 => Some(ListRequest)
    case 1 => Some(Ping)
    case 2 => Some(Pong)
    case 9 => Some(HelloOk(texts))
    case 10 => if count == 1 then Some(SessionAttach(texts[0])) else None
    case 11 => if count == 1 then Some(SessionAccepted(texts[0])) else None
    case 12 => Some(DeviceList(set d | d in texts))
    case 13 => if count == 2 then Some(OpenRequest(texts[0], texts[1])) else None
    case 14 => if count == 1 then Some(Open(texts[0])) else None
    case 15 => if count == 1 then Some(Ready(texts[0])) else None
    case 16 => if count == 2 then Some(Failed(texts[0], texts[1])) else None
    case k =>
      if 3 <= k <= 5 then Some(Hello(r.number, NumberedRole(k - 3), r.data, None, texts))
      else if 6 <= k <= 8 && count > 0 then Some(Hello(r.number, NumberedRole(k - 6), r.data, Some(texts[0]), texts[1..]))
      else None
  }

  lemma MessageOfRecord(m: Message)
    ensures FromRecord(ToRecord(m)) == Some(m)
  {
    match m
    case Hello(_, _, _, Some(id), features) => assert ([id] + features)[1..] == features;
    case DeviceList(devices) => assert (set d | d in Listed(devices)) == devices;
    case _ =>
  }

  function Decode(b: seq<byte>): Option<Message> {
    match GetRecord(b)
    case None => None
    case Some(r) => FromRecord(r)
  }

  /** The laws the frame layer asks of a serialisation can be met. */
  lemma MessagesHaveACodec() returns (codec: Frames.Codec<Message>)
    ensures Frames.LawfulCodec(codec)
  {
    codec := Frames.Codec((m: Message) => PutRecord(ToRecord(m)), Decode);
    forall m: Message
      ensures codec.decode(codec.encode(m)) == Some(m)
    {
      RecordRoundTrip(ToRecord(m));
      MessageOfRecord(m);
    }
  }
}
