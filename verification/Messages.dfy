/** The control messages of src/protocol.rs. */
module Messages {
  import opened Bytes

  type DeviceId = string
  type SessionId = string
  type Token = seq<byte>   // UTF-8 bytes

  const PROTOCOL_VERSION: nat := 4
  const HEARTBEAT_FEATURE: string := "heartbeat"

  datatype Role = RoleAgent | RoleAgentSession | RoleController

  /** `DeviceList` carries a set: the order the relay sorts it into plays no part here. */
  datatype Message =
    | Hello(version: nat, role: Role, token: Token, deviceId: Option<DeviceId>, features: seq<string>)
    | HelloOk(features: seq<string>)
    | SessionAttach(sessionId: SessionId)
    | SessionAccepted(sessionId: SessionId)
    | ListRequest
    | DeviceList(devices: set<DeviceId>)
    | OpenRequest(target: DeviceId, sessionId: SessionId)
    | Open(sessionId: SessionId)
    | Ready(sessionId: SessionId)
    | Failed(sessionId: SessionId, reason: string)
    | Ping
    | Pong

  predicate OffersHeartbeat(features: seq<string>) {
    HEARTBEAT_FEATURE in features
  }

  /** The frames a relay sends on a control channel once it has accepted the greeting. */
  predicate ControlTraffic(m: Message) {
    m.Open? || m == Pong
  }

  /** The session ids of the Open frames among `frames`. */
  function OpensIn(frames: seq<Message>): seq<SessionId> {
    if frames == [] then [] else
      var rest, last := OpensIn(frames[..|frames| - 1]), frames[|frames| - 1];
      if last.Open? then rest + [last.sessionId] else rest
  }

  lemma OpensSnoc(frames: seq<Message>, m: Message)
    ensures OpensIn(frames + [m]) == if m.Open? then OpensIn(frames) + [m.sessionId] else OpensIn(frames)
  {
    assert (frames + [m])[..|frames|] == frames;
  }
}
