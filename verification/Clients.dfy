/**
 The programs at the other end of a connection: the agent's control channel and session set-up of
 src/agent.rs, and the two controller programs of src/connect.rs. `Told`, `Spoken` and `Dialled` are their
 steps; the methods run the same steps over a link, in the order the programs take them.
 */
module Clients {
  import opened Bytes
  import opened Messages

  datatype Plan =
    | ControlPlan(device: DeviceId, token: Token, features: seq<string>)
    | SessionPlan(device: DeviceId, token: Token, session: SessionId)
    | OpenPlan(target: DeviceId, token: Token, session: SessionId)
    | ListPlan(token: Token)

  datatype Outcome =
    | Bridged
    | Listed(devices: set<DeviceId>)
    | Refused(reason: string)
    | Unreachable(reason: string)     // the local SSH server does not answer
    | Broken                          // an error or a deadline
    | Unexpected(message: Message)    // the arm no peer should ever see

  datatype Phase =
    | Hailing
    | AwaitingOk
    | Asking
    | AwaitingReply
    | Dialing
    | Announcing
    | Declining(reason: string)
    | Controlling(heartbeat: bool)
    | Ended(outcome: Outcome)

  function HelloOf(plan: Plan): Message {
    match plan
    case ControlPlan(device, token, features) => Hello(PROTOCOL_VERSION, RoleAgent, token, Some(device), features)
    case SessionPlan(device, token, _) => Hello(PROTOCOL_VERSION, RoleAgentSession, token, Some(device), [])
    case OpenPlan(_, token, _) => Hello(PROTOCOL_VERSION, RoleController, token, None, [])
    case ListPlan(token) => Hello(PROTOCOL_VERSION, RoleController, token, None, [])
  }

  /** The request that follows the greeting. */
  function AskOf(plan: Plan): Message
    requires !plan.ControlPlan?
  {
    match plan
    case SessionPlan(_, _, session) => SessionAttach(session)
    case OpenPlan(target, _, session) => OpenRequest(target, session)
    case ListPlan(_) => ListRequest
  }

  predicate Fits(plan: Plan, phase: Phase) {
    match phase
    case Asking => !plan.ControlPlan?
    case AwaitingReply => !plan.ControlPlan?
    case Dialing => plan.SessionPlan?
    case Announcing => plan.SessionPlan?
    case Declining(_) => plan.SessionPlan?
    case Controlling(_) => plan.ControlPlan?
    case _ => true
  }

  predicate Speaks(phase: Phase) {
    phase.Hailing? || phase.Asking? || phase.Announcing? || phase.Declining?
  }

  predicate Listens(phase: Phase) {
    phase.AwaitingOk? || phase.AwaitingReply? || phase.Controlling?
  }

  /** The frame a speaking phase writes. */
  function Line(plan: Plan, phase: Phase): Message
    requires Fits(plan, phase) && Speaks(phase)
  {
    match phase
    case Hailing => HelloOf(plan)
    case Asking => AskOf(plan)
    case Announcing => Ready(plan.session)
    case Declining(reason) => Failed(plan.session, reason)
  }

  function Spoken(phase: Phase): Phase
    requires Speaks(phase)
  {
    match phase
    case Hailing => AwaitingOk
    case Asking => AwaitingReply
    case Announcing => Ended(Bridged)
    case Declining(reason) => Ended(Unreachable(reason))
  }

  /** The arm a received frame takes. */
  function Told(plan: Plan, phase: Phase, m: Message): (next: Phase)
    requires Fits(plan, phase) && Listens(phase)
    ensures Fits(plan, next)
  {
    match phase
    case AwaitingOk =>
      if !m.HelloOk? then Ended(Unexpected(m))
      else if plan.ControlPlan? then Controlling(OffersHeartbeat(m.features))
      else Asking
    case AwaitingReply => (
      match plan
      case ListPlan(_) => if m.DeviceList? then Ended(Listed(m.devices)) else Ended(Unexpected(m))
      case OpenPlan(_, _, session) =>
        if m == Ready(session) then Ended(Bridged)
        else if m.Failed? && m.sessionId == session then Ended(Refused(m.reason))
        else Ended(Unexpected(m))
      case SessionPlan(_, _, session) =>
        if m == SessionAccepted(session) then Dialing
        else if m.Failed? && m.sessionId == session then Ended(Refused(m.reason))
        else Ended(Unexpected(m)))
    case Controlling(_) => if ControlTraffic(m) then phase else Ended(Unexpected(m))
  }

  /** A client has no use for exactly these frames, and ends on them. */
  lemma UnexpectedExactlyWhen(plan: Plan, phase: Phase, m: Message)
    requires Fits(plan, phase) && Listens(phase)
    ensures Told(plan, phase, m) == Ended(Unexpected(m)) <==>
      match phase
      case AwaitingOk => !m.HelloOk?
      case Controlling(_) => !m.Open? && !m.Pong?
      case _ => (
        match plan
        case ListPlan(_) => !m.DeviceList?
        case OpenPlan(_, _, session) => !((m.Ready? || m.Failed?) && m.sessionId == session)
        case SessionPlan(_, _, session) => !((m.SessionAccepted? || m.Failed?) && m.sessionId == session)
        case _ => false)
    ensures phase.Controlling? && (m.Open? || m.Pong?) ==> Told(plan, phase, m) == phase
  {
  }

  /** The outcome of connecting to the local SSH server. */
  function Dialled(failure: Option<string>): Phase {
    match failure
    case None => Announcing
    case Some(reason) => Declining(reason)
  }

  // ---------------------------------------------------------------- the programs over a link

  /** Whether each write completes, and what each read yields: nothing for an error or a deadline. */
  class Link {
    var writes: seq<bool>
    var frames: seq<Option<Message>>
    var sent: seq<Message>

    constructor (writes: seq<bool>, frames: seq<Option<Message>>)
      ensures this.writes == writes && this.frames == frames && sent == []
    {
      this.writes, this.frames, sent := writes, frames, [];
    }

    method Write(m: Message) returns (ok: bool)
      modifies this
      ensures ok == (old(writes) != [] && old(writes)[0])
      ensures writes == (if old(writes) == [] then [] else old(writes)[1..]) && frames == old(frames)
      ensures sent == if ok then old(sent) + [m] else old(sent)
    {
      ok := writes != [] && writes[0];
      if writes != [] {
        writes := writes[1..];
      }
      if ok {
        sent := sent + [m];
      }
    }

    method Read() returns (frame: Option<Message>)
      modifies this
      ensures frame == if old(frames) == [] then None else old(frames)[0]
      ensures frames == (if old(frames) == [] then [] else old(frames)[1..])
      ensures writes == old(writes) && sent == old(sent)
    {
      frame := None;
      if frames != [] {
        frame := frames[0];
        frames := frames[1..];
      }
    }
  }

  datatype Played = Played(end: Phase, said: seq<Message>)

  /** The steps of a client from `phase` on, until it ends or serves its control channel. */
  function Play(plan: Plan, phase: Phase, writes: seq<bool>, frames: seq<Option<Message>>, dial: Option<string>): Played
    requires Fits(plan, phase)
    decreases |writes| + |frames|, if phase.Dialing? then 1 else 0
  {
    if phase.Ended? || phase.Controlling? then Played(phase, [])
    else if phase.Dialing? then Play(plan, Dialled(dial), writes, frames, dial)
    else if Speaks(phase) then
      if writes == [] || !writes[0] then Played(Ended(Broken), [])
      else
        var rest := Play(plan, Spoken(phase), writes[1..], frames, dial);
        Played(rest.end, [Line(plan, phase)] + rest.said)
    else
      if frames == [] || frames[0].None? then Played(Ended(Broken), [])
      else Play(plan, Told(plan, phase, frames[0].value), writes, frames[1..], dial)
  }

  /** Once its session is accepted a client has one more frame to write. */
  lemma LastWord(plan: Plan, writes: seq<bool>, frames: seq<Option<Message>>, dial: Option<string>)
    requires plan.SessionPlan?
    ensures Play(plan, Dialing, writes, frames, dial) ==
      if writes == [] || !writes[0] then Played(Ended(Broken), [])
      else Played(Ended(if dial.None? then Bridged else Unreachable(dial.value)), [Line(plan, Dialled(dial))] + [])
  {
    if writes != [] && writes[0] {
      assert Play(plan, Spoken(Dialled(dial)), writes[1..], frames, dial).said == [];
    }
  }

  // ---------------------------------------------------------------- what the programs come to

  /** The first `count` writes complete. */
  predicate Through(writes: seq<bool>, count: nat) {
    |writes| >= count && forall i :: 0 <= i < count ==> writes[i]
  }

  predicate HelloAccepted(frames: seq<Option<Message>>) {
    frames != [] && frames[0].Some? && frames[0].value.HelloOk?
  }

  predicate Hears(frames: seq<Option<Message>>, m: Message) {
    |frames| > 1 && frames[1] == Some(m)
  }

  lemma PlayedUpToHello(plan: Plan, writes: seq<bool>, frames: seq<Option<Message>>, dial: Option<string>)
    ensures var run := Play(plan, Hailing, writes, frames, dial);
      if Through(writes, 1) && HelloAccepted(frames) then
        var next := if plan.ControlPlan? then Controlling(OffersHeartbeat(frames[0].value.features)) else Asking;
        var rest := Play(plan, next, writes[1..], frames[1..], dial);
        run == Played(rest.end, [HelloOf(plan)] + rest.said)
      else run.end.Ended? && (run.end.outcome.Broken? || run.end.outcome.Unexpected?) && run.said <= [HelloOf(plan)]
  {
    if Through(writes, 1) {
      var rest := Play(plan, AwaitingOk, writes[1..], frames, dial);
      assert Play(plan, Hailing, writes, frames, dial) == Played(rest.end, [HelloOf(plan)] + rest.said);
      if HelloAccepted(frames) {
        assert rest == Play(plan, Told(plan, AwaitingOk, frames[0].value), writes[1..], frames[1..], dial);
      } else if frames != [] && frames[0].Some? {
        assert rest == Play(plan, Ended(Unexpected(frames[0].value)), writes[1..], frames[1..], dial);
        assert rest == Played(Ended(Unexpected(frames[0].value)), []);
      } else {
        assert rest == Played(Ended(Broken), []);
      }
    }
  }

  lemma PlayedUpToReply(plan: Plan, writes: seq<bool>, frames: seq<Option<Message>>, dial: Option<string>)
    requires !plan.ControlPlan?
    ensures var run := Play(plan, Hailing, writes, frames, dial);
      if Through(writes, 2) && HelloAccepted(frames) then
        var rest := Play(plan, AwaitingReply, writes[2..], frames[1..], dial);
        run == Played(rest.end, [HelloOf(plan), AskOf(plan)] + rest.said)
      else run.end.Ended? && (run.end.outcome.Broken? || run.end.outcome.Unexpected?) && run.said <= [HelloOf(plan)]
  {
    PlayedUpToHello(plan, writes, frames, dial);
    if Through(writes, 1) && HelloAccepted(frames) {
      var asked := Play(plan, Asking, writes[1..], frames[1..], dial);
      if Through(writes, 2) {
        assert writes[1..][1..] == writes[2..] && writes[1..][0];
        var rest := Play(plan, AwaitingReply, writes[2..], frames[1..], dial);
        assert asked == Played(rest.end, [AskOf(plan)] + rest.said);
        assert [HelloOf(plan)] + ([AskOf(plan)] + rest.said) == [HelloOf(plan), AskOf(plan)] + rest.said;
      } else {
        assert asked == Played(Ended(Broken), []);
      }
    }
  }

  predicate Connects(plan: Plan, writes: seq<bool>, frames: seq<Option<Message>>, dial: Option<string>) {
    match plan
    case OpenPlan(_, _, session) => Through(writes, 2) && HelloAccepted(frames) && Hears(frames, Ready(session))
    case SessionPlan(_, _, session) =>
      Through(writes, 3) && HelloAccepted(frames) && Hears(frames, SessionAccepted(session)) && dial.None?
    case _ => false
  }

  /**
   A client is bridged exactly when all its writes complete, the relay welcomes it and grants its own session,
   and, on the agent's side, the local server answers; it has then said exactly what the relay waits for.
   */
  lemma BridgedExactlyWhen(plan: Plan, writes: seq<bool>, frames: seq<Option<Message>>, dial: Option<string>)
    ensures var run := Play(plan, Hailing, writes, frames, dial);
      && (run.end == Ended(Bridged) <==> Connects(plan, writes, frames, dial))
      && (run.end == Ended(Bridged) ==>
            match plan
            case OpenPlan(target, token, session) =>
              run.said == [Hello(PROTOCOL_VERSION, RoleController, token, None, []), OpenRequest(target, session)]
            case SessionPlan(device, token, session) =>
              run.said == [Hello(PROTOCOL_VERSION, RoleAgentSession, token, Some(device), []), SessionAttach(session),
                           Ready(session)]
            case _ => false)
  {
    if plan.ControlPlan? {
      ControllingExactlyWhen(plan, writes, frames, dial, true);
    } else {
      PlayedUpToReply(plan, writes, frames, dial);
      if plan.SessionPlan? && Through(writes, 2) && Hears(frames, SessionAccepted(plan.session)) {
        assert frames[1..][0] == frames[1];
        LastWord(plan, writes[2..], frames[1..][1..], dial);
      }
    }
  }

  /** It is refused exactly when the relay says so for its session, and gives the relay's reason. */
  lemma RefusedExactlyWhen(plan: Plan, writes: seq<bool>, frames: seq<Option<Message>>, dial: Option<string>,
                           reason: string)
    ensures Play(plan, Hailing, writes, frames, dial).end == Ended(Refused(reason)) <==>
      && (plan.OpenPlan? || plan.SessionPlan?)
      && Through(writes, 2) && HelloAccepted(frames) && Hears(frames, Failed(plan.session, reason))
  {
    if plan.ControlPlan? {
      PlayedUpToHello(plan, writes, frames, dial);
    } else {
      PlayedUpToReply(plan, writes, frames, dial);
      if plan.SessionPlan? && Through(writes, 2) && Hears(frames, SessionAccepted(plan.session)) {
        assert frames[1..][0] == frames[1];
        LastWord(plan, writes[2..], frames[1..][1..], dial);
      }
    }
  }

  /** A local server that does not answer is reported to the relay, with the reason. */
  lemma UnreachableExactlyWhen(plan: Plan, writes: seq<bool>, frames: seq<Option<Message>>, dial: Option<string>,
                               reason: string)
    requires plan.SessionPlan?
    ensures var run := Play(plan, Hailing, writes, frames, dial);
      && (run.end == Ended(Unreachable(reason)) <==>
            && Through(writes, 3) && HelloAccepted(frames) && Hears(frames, SessionAccepted(plan.session))
            && dial == Some(reason))
      && (run.end == Ended(Unreachable(reason)) ==>
            |run.said| == 3 && run.said[1] == SessionAttach(plan.session) && run.said[2] == Failed(plan.session, reason))
  {
    PlayedUpToReply(plan, writes, frames, dial);
    if Through(writes, 2) && Hears(frames, SessionAccepted(plan.session)) {
      assert frames[1..][0] == frames[1];
      LastWord(plan, writes[2..], frames[1..][1..], dial);
    }
  }

  /** The device list program ends with the list the relay answers, and with nothing else as a list. */
  lemma ListedExactlyWhen(plan: Plan, writes: seq<bool>, frames: seq<Option<Message>>, dial: Option<string>,
                          devices: set<DeviceId>)
    requires plan.ListPlan?
    ensures var run := Play(plan, Hailing, writes, frames, dial);
      && (run.end == Ended(Listed(devices)) <==>
            Through(writes, 2) && HelloAccepted(frames) && Hears(frames, DeviceList(devices)))
      && (run.end == Ended(Listed(devices)) ==>
            run.said == [Hello(PROTOCOL_VERSION, RoleController, plan.token, None, []), ListRequest])
  {
    PlayedUpToReply(plan, writes, frames, dial);
  }

  /** The agent's control connection is up exactly when the relay welcomes it, with the heartbeat of the answer. */
  lemma ControllingExactlyWhen(plan: Plan, writes: seq<bool>, frames: seq<Option<Message>>, dial: Option<string>,
                               heartbeat: bool)
    requires plan.ControlPlan?
    ensures var run := Play(plan, Hailing, writes, frames, dial);
      && (run.end == Controlling(heartbeat) <==>
            Through(writes, 1) && HelloAccepted(frames) && heartbeat == OffersHeartbeat(frames[0].value.features))
      && (run.end.Controlling? ==>
            run.said == [Hello(PROTOCOL_VERSION, RoleAgent, plan.token, Some(plan.device), plan.features)])
      && (run.end.Ended? ==> run.end.outcome.Broken? || run.end.outcome.Unexpected?)
  {
    PlayedUpToHello(plan, writes, frames, dial);
  }

  // ---------------------------------------------------------------- the programs themselves

  /** The greeting every program starts with; `features` is what the relay accepted. */
  method Greet(link: Link, plan: Plan, ghost dial: Option<string>)
    returns (stop: Option<Outcome>, features: seq<string>, ghost said: seq<Message>)
    modifies link
    ensures link.sent == old(link.sent) + said
    ensures stop.None? ==>
      && said == [HelloOf(plan)]
      && var next := if plan.ControlPlan? then Controlling(OffersHeartbeat(features)) else Asking;
         var rest := Play(plan, next, link.writes, link.frames, dial);
         Play(plan, Hailing, old(link.writes), old(link.frames), dial) == Played(rest.end, said + rest.said)
    ensures stop.Some? ==>
      Play(plan, Hailing, old(link.writes), old(link.frames), dial) == Played(Ended(stop.value), said)
  {
    features, said := [], [];
    var ok := link.Write(HelloOf(plan));
    if !ok {
      return Some(Broken), [], said;
    }
    said := [HelloOf(plan)];
    assert said + [] == said;
    var reply := link.Read();
    if reply.None? {
      return Some(Broken), [], said;
    }
    assert Told(plan, AwaitingOk, reply.value).Ended? ==>
      Play(plan, Told(plan, AwaitingOk, reply.value), link.writes, link.frames, dial).said == [];
    match reply.value
    case HelloOk(accepted) => return None, accepted, said;
    case _ => return Some(Unexpected(reply.value)), [], said;
  }

  /** `list_devices_with_timing`. */
  method ListDevices(link: Link, token: Token) returns (outcome: Outcome, ghost said: seq<Message>)
    modifies link
    ensures link.sent == old(link.sent) + said
    ensures Play(ListPlan(token), Hailing, old(link.writes), old(link.frames), None) == Played(Ended(outcome), said)
  {
    var stop, features;
    stop, features, said := Greet(link, ListPlan(token), None);
    if stop.Some? {
      return stop.value, said;
    }
    assert said + [] == said;
    var ok := link.Write(ListRequest);
    if !ok {
      return Broken, said;
    }
    said := said + ([ListRequest] + []);
    var reply := link.Read();
    if reply.None? {
      return Broken, said;
    }
    ghost var next := Told(ListPlan(token), AwaitingReply, reply.value);
    assert next.Ended? ==> Play(ListPlan(token), next, link.writes, link.frames, None).said == [];
    match reply.value
    case DeviceList(devices) => return Listed(devices), said;
    case _ => return Unexpected(reply.value), said;
  }

  /** `run_with_timing`, up to the point where the terminal is bridged. */
  method OpenSession(link: Link, target: DeviceId, token: Token, session: SessionId)
    returns (outcome: Outcome, ghost said: seq<Message>)
    modifies link
    ensures link.sent == old(link.sent) + said
    ensures Play(OpenPlan(target, token, session), Hailing, old(link.writes), old(link.frames), None)
            == Played(Ended(outcome), said)
  {
    var stop, features;
    stop, features, said := Greet(link, OpenPlan(target, token, session), None);
    if stop.Some? {
      return stop.value, said;
    }
    assert said + [] == said;
    var ok := link.Write(OpenRequest(target, session));
    if !ok {
      return Broken, said;
    }
    said := said + ([OpenRequest(target, session)] + []);
    var reply := link.Read();
    if reply.None? {
      return Broken, said;
    }
    ghost var next := Told(OpenPlan(target, token, session), AwaitingReply, reply.value);
    assert next.Ended? ==> Play(OpenPlan(target, token, session), next, link.writes, link.frames, None).said == [];
    match reply.value
    case Ready(id) => return if id == session then Bridged else Unexpected(reply.value), said;
    case Failed(id, reason) => return if id == session then Refused(reason) else Unexpected(reply.value), said;
    case _ => return Unexpected(reply.value), said;
  }

  /** `run_session`, up to the point where the local connection is bridged. */
  method RunSession(link: Link, device: DeviceId, token: Token, session: SessionId, dial: Option<string>)
    returns (outcome: Outcome, ghost said: seq<Message>)
    modifies link
    ensures link.sent == old(link.sent) + said
    ensures Play(SessionPlan(device, token, session), Hailing, old(link.writes), old(link.frames), dial)
            == Played(Ended(outcome), said)
  {
    var stop, features;
    stop, features, said := Greet(link, SessionPlan(device, token, session), dial);
    if stop.Some? {
      return stop.value, said;
    }
    assert said + [] == said;
    var ok := link.Write(SessionAttach(session));
    if !ok {
      return Broken, said;
    }
    ghost var greeting := said;
    said := said + ([SessionAttach(session)] + []);
    var reply := link.Read();
    if reply.None? {
      return Broken, said;
    }
    ghost var next := Told(SessionPlan(device, token, session), AwaitingReply, reply.value);
    assert next.Ended? ==> Play(SessionPlan(device, token, session), next, link.writes, link.frames, dial).said == [];
    match reply.value {
      case SessionAccepted(id) => if id != session { return Unexpected(reply.value), said; }
      case Failed(id, reason) => return if id == session then Refused(reason) else Unexpected(reply.value), said;
      case _ => return Unexpected(reply.value), said;
    }
    var last := if dial.None? then Ready(session) else Failed(session, dial.value);
    ghost var writes, frames := link.writes, link.frames;
    ok := link.Write(last);
    LastWord(SessionPlan(device, token, session), writes, frames, dial);
    if !ok {
      return Broken, said;
    }
    said := greeting + ([SessionAttach(session)] + ([last] + []));
    return if dial.None? then Bridged else Unreachable(dial.value), said;
  }

  /** The first half of `run_control`: the channel, and whether both ends beat. */
  method ConnectControl(link: Link, device: DeviceId, token: Token, features: seq<string>)
    returns (heartbeat: Option<bool>, failure: Outcome, ghost said: seq<Message>)
    modifies link
    ensures link.sent == old(link.sent) + said
    ensures Play(ControlPlan(device, token, features), Hailing, old(link.writes), old(link.frames), None)
            == Played(if heartbeat.Some? then Controlling(heartbeat.value) else Ended(failure), said)
  {
    var stop, accepted;
    stop, accepted, said := Greet(link, ControlPlan(device, token, features), None);
    if stop.Some? {
      return None, stop.value, said;
    }
    assert said + [] == said;
    return Some(OffersHeartbeat(accepted)), Broken, said;
  }
}
