/**
 The relay together with its peers. Every connection carries two FIFO streams of whole frames; a peer is one
 of the programs of Clients, or a stranger who may send anything. What a peer has written and the relay has
 not yet read is `sent[|heard|..]`; what the relay has written and the peer has not yet read is `said[got..]`.
 */
module Compose {
  import opened Bytes
  import opened Messages
  import Auth
  import opened Relay
  import opened RelayFrames
  import opened RelayLogs
  import opened RelayTheorems
  import opened Clients

  // ---------------------------------------------------------------- how conversations grow

  /** A relay step hears at most one frame, the one it received, and unsays nothing. */
  ghost predicate Grew(r: Relay, a: Action, before: Log, after: Log, t: TaskId) {
    && before.said <= after.said
    && after.heard == (if a.Receive? && a.t == t then before.heard + [a.m] else before.heard)
  }

  /** Only an arrival adds a task; no other step unsays or unhears anything. */
  lemma LogsGrow(r: Relay, a: Action)
    requires Shape(r) && Enabled(r, a) && !a.Arrive?
    ensures |Next(r, a).tasks| == |r.tasks|
    ensures forall t: nat :: t < |r.tasks| ==> Grew(r, a, r.logs[t], Next(r, a).logs[t], t)
  {
    if !a.Reload? {
      hide Next;
      OnlyStep(r, a);
    }
  }

  datatype Peer =
    | Stranger
    | Client(plan: Plan, phase: Phase, sent: seq<Message>, got: nat)

  datatype World = World(relay: Relay, peers: seq<Peer>)

  datatype Deed =
    | Join(plan: Option<Plan>)                  // a peer connects: a program, or a stranger
    | Turn(a: Action)                           // a step of the relay
    | Speak(t: TaskId)                          // a client writes its next frame
    | Hear(t: TaskId)                           // a client reads a frame
    | Dial(t: TaskId, failure: Option<string>)  // a session client has tried the local SSH server
    | Beat(t: TaskId)                           // a control client writes a Ping
    | Quit(t: TaskId)                           // an error, a deadline or the user ends a client

  predicate Tied(w: World) {
    Shape(w.relay) && |w.peers| == |w.relay.tasks|
  }

  predicate Active(w: World, t: TaskId) {
    t < |w.peers| && w.peers[t].Client? && Fits(w.peers[t].plan, w.peers[t].phase)
  }

  predicate Possible(w: World, d: Deed)
    requires Tied(w)
  {
    match d
    case Join(_) => Enabled(w.relay, Arrive)
    case Turn(a) =>
      && Enabled(w.relay, a) && !a.Arrive?
      && (a.Receive? && w.peers[a.t].Client? ==> NextFrame(w.peers[a.t].sent, |w.relay.logs[a.t].heard|, a.m))
    case Speak(t) => Active(w, t) && Speaks(w.peers[t].phase)
    case Hear(t) => Active(w, t) && Listens(w.peers[t].phase) && w.peers[t].got < |w.relay.logs[t].said|
    case Dial(t, _) => Active(w, t) && w.peers[t].phase.Dialing?
    case Beat(t) => Active(w, t) && w.peers[t].phase == Controlling(true)
    case Quit(t) => Active(w, t) && !w.peers[t].phase.Ended?
  }

  predicate NextFrame(stream: seq<Message>, read: nat, m: Message) {
    read < |stream| && stream[read] == m
  }

  function Do(w: World, d: Deed): (n: World)
    requires Tied(w) && Possible(w, d)
    ensures Tied(n)
  {
    match d
    case Join(None) => World(Next(w.relay, Arrive), w.peers + [Stranger])
    case Join(Some(plan)) => World(Next(w.relay, Arrive), w.peers + [Client(plan, Hailing, [], 0)])
    case Turn(a) => LogsGrow(w.relay, a); w.(relay := Next(w.relay, a))
    case Speak(t) =>
      var p := w.peers[t];
      w.(peers := w.peers[t := p.(phase := Spoken(p.phase), sent := p.sent + [Line(p.plan, p.phase)])])
    case Hear(t) =>
      var p := w.peers[t];
      w.(peers := w.peers[t := p.(phase := Told(p.plan, p.phase, w.relay.logs[t].said[p.got]), got := p.got + 1)])
    case Dial(t, failure) => w.(peers := w.peers[t := w.peers[t].(phase := Dialled(failure))])
    case Beat(t) => w.(peers := w.peers[t := w.peers[t].(sent := w.peers[t].sent + [Ping])])
    case Quit(t) => w.(peers := w.peers[t := w.peers[t].(phase := Ended(Broken))])
  }

  // ---------------------------------------------------------------- what a client has written and read

  /** The frames a client with this plan may ever write, in order. */
  ghost predicate Legal(plan: Plan, sent: seq<Message>) {
    sent == [] ||
    (&& sent[0] == HelloOf(plan)
     && match plan
        case ControlPlan(_, _, features) =>
          forall i :: 1 <= i < |sent| ==> sent[i] == Ping && OffersHeartbeat(features)
        case SessionPlan(_, _, session) =>
          && |sent| <= 3 && (|sent| >= 2 ==> sent[1] == AskOf(plan))
          && (|sent| == 3 ==> sent[2] == Ready(session) || RefusalOf(sent[2], session))
        case _ => |sent| <= 2 && (|sent| == 2 ==> sent[1] == AskOf(plan)))
  }

  /** How far a client is, by what it has written and read. */
  ghost predicate Standing(p: Peer, said: seq<Message>)
    requires p.Client?
  {
    && Fits(p.plan, p.phase) && p.got <= |said|
    && match p.phase
       case Hailing => p.sent == [] && p.got == 0
       case AwaitingOk => |p.sent| == 1 && p.got == 0
       case Asking => |p.sent| == 1 && p.got == 1
       case AwaitingReply => |p.sent| == 2 && p.got == 1
       case Dialing => |p.sent| == 2 && p.got == 2
       case Announcing => |p.sent| == 2 && p.got == 2
       case Declining(_) => |p.sent| == 2 && p.got == 2
       case Controlling(heartbeat) => |p.sent| >= 1 && p.got >= 1 && heartbeat == OffersHeartbeat(p.plan.features)
       case Ended(outcome) =>
         && !outcome.Unexpected?
         && (outcome.Bridged? ==>
               || (p.plan.OpenPlan? && p.got == 2 && said[1] == Ready(p.plan.session))
               || (p.plan.SessionPlan? && |p.sent| == 3 && p.sent[2] == Ready(p.plan.session)))
         && (p.plan.SessionPlan? && |p.sent| == 3 && p.sent[2] == Ready(p.plan.session) ==> outcome.Bridged?)
  }

  /** A client and its connection: the relay has read a prefix of what it wrote. */
  ghost predicate Faithful(p: Peer, log: Log) {
    p.Client? ==> log.heard <= p.sent && Legal(p.plan, p.sent) && Standing(p, log.said)
  }

  ghost predicate Sound(w: World) {
    && Tied(w) && Inv(w.relay)
    && forall t: nat :: t < |w.peers| ==> Faithful(w.peers[t], w.relay.logs[t])
  }

  lemma SoundStart(auth: Auth.Snapshot)
    ensures Sound(World(Start(auth), []))
  {
    InvStart(auth);
  }

  lemma FaithfulLater(r: Relay, a: Action, p: Peer, before: Log, after: Log, t: TaskId)
    requires Faithful(p, before) && Grew(r, a, before, after, t)
    requires a.Receive? && a.t == t && p.Client? ==> NextFrame(p.sent, |before.heard|, a.m)
    ensures Faithful(p, after)
  {
    hide Legal;
  }

  lemma SoundTurn(w: World, a: Action)
    requires Sound(w) && Possible(w, Turn(a))
    ensures Sound(Do(w, Turn(a)))
  {
    hide Inv;
    hide Next;
    hide Faithful;
    hide Grew;
    hide NextFrame;
    InvStep(w.relay, a);
    LogsGrow(w.relay, a);
    var n := Do(w, Turn(a));
    forall t: nat | t < |n.peers|
      ensures Faithful(n.peers[t], n.relay.logs[t])
    {
      assert Faithful(w.peers[t], w.relay.logs[t]);
      FaithfulLater(w.relay, a, w.peers[t], w.relay.logs[t], n.relay.logs[t], t);
    }
  }

  lemma SoundJoin(w: World, plan: Option<Plan>)
    requires Sound(w) && Possible(w, Join(plan))
    ensures Sound(Do(w, Join(plan)))
  {
    hide Inv;
    InvStep(w.relay, Arrive);
    var n := Do(w, Join(plan));
    forall t: nat | t < |n.peers|
      ensures Faithful(n.peers[t], n.relay.logs[t])
    {
      if t < |w.peers| {
        assert Faithful(w.peers[t], w.relay.logs[t]);
      }
    }
  }

  /** A client that does not touch the wire, or writes. */
  lemma ClientWrites(w: World, d: Deed)
    requires Sound(w) && Possible(w, d) && (d.Speak? || d.Dial? || d.Beat? || d.Quit?)
    ensures Faithful(Do(w, d).peers[d.t], w.relay.logs[d.t])
  {
    hide Inv;
    assert Faithful(w.peers[d.t], w.relay.logs[d.t]);
  }

  /** Whatever the relay answers is what the client waits for. */
  lemma ClientHears(w: World, t: TaskId)
    requires Sound(w) && Possible(w, Hear(t))
    ensures Faithful(Do(w, Hear(t)).peers[t], w.relay.logs[t])
  {
    var p, log := w.peers[t], w.relay.logs[t];
    assert Faithful(p, log) && Disciplined(log);
    assert log.heard[0] == p.sent[0];
    if p.phase.AwaitingReply? {
      assert log.heard[1] == p.sent[1];
    }
  }

  lemma SoundClient(w: World, n: World, t: TaskId)
    requires Sound(w) && t < |w.peers| == |n.peers| && n == w.(peers := w.peers[t := n.peers[t]])
    requires Faithful(n.peers[t], w.relay.logs[t])
    ensures Sound(n)
  {
    hide Inv;
    hide Faithful;
    forall u: nat | u < |n.peers|
      ensures Faithful(n.peers[u], n.relay.logs[u])
    {
      assert Faithful(w.peers[u], w.relay.logs[u]);
    }
  }

  lemma SoundDeed(w: World, d: Deed)
    requires Sound(w) && Possible(w, d)
    ensures Sound(Do(w, d))
  {
    hide Inv;
    hide Next;
    hide Faithful;
    match d
    case Turn(a) => SoundTurn(w, a);
    case Join(plan) => SoundJoin(w, plan);
    case Hear(t) => ClientHears(w, t); SoundClient(w, Do(w, d), t);
    case Speak(t) => ClientWrites(w, d); SoundClient(w, Do(w, d), t);
    case Dial(t, _) => ClientWrites(w, d); SoundClient(w, Do(w, d), t);
    case Beat(t) => ClientWrites(w, d); SoundClient(w, Do(w, d), t);
    case Quit(t) => ClientWrites(w, d); SoundClient(w, Do(w, d), t);
  }

  // ---------------------------------------------------------------- runs

  ghost predicate History(worlds: seq<World>, deeds: seq<Deed>) {
    && |worlds| == |deeds| + 1
    && (exists auth :: worlds[0] == World(Start(auth), []))
    && forall i :: 0 <= i < |deeds| ==>
         Tied(worlds[i]) && Possible(worlds[i], deeds[i]) && worlds[i + 1] == Do(worlds[i], deeds[i])
  }

  lemma {:induction false} SoundHistory(worlds: seq<World>, deeds: seq<Deed>, i: nat)
    requires History(worlds, deeds) && i < |worlds|
    ensures Sound(worlds[i])
  {
    hide Sound;
    if i == 0 {
      var auth :| worlds[0] == World(Start(auth), []);
      SoundStart(auth);
    } else {
      SoundHistory(worlds, deeds, i - 1);
      SoundDeed(worlds[i - 1], deeds[i - 1]);
    }
  }

  ghost predicate Occurs(w: World) {
    exists worlds, deeds :: History(worlds, deeds) && w in worlds
  }

  lemma OccursSound(w: World)
    requires Occurs(w)
    ensures Sound(w)
  {
    hide Sound;
    hide History;
    var worlds, deeds :| History(worlds, deeds) && w in worlds;
    var i :| 0 <= i < |worlds| && worlds[i] == w;
    SoundHistory(worlds, deeds, i);
  }

  // ---------------------------------------------------------------- theorems

  /** No client ever takes an unexpected-message arm, whatever the strangers do. */
  lemma ClientNeverSurprised(w: World, t: TaskId)
    requires Occurs(w) && t < |w.peers| && w.peers[t].Client?
    ensures !(w.peers[t].phase.Ended? && w.peers[t].phase.outcome.Unexpected?)
  {
    OccursSound(w);
    assert Faithful(w.peers[t], w.relay.logs[t]);
  }

  /** The frames a relay phase has an arm for. */
  predicate Expected(task: Task, m: Message) {
    match task
    case Greeting => m.Hello? && m.version == PROTOCOL_VERSION
    case Serving(_, _, _) => m == Ping
    case Attaching(_) => m.SessionAttach?
    case Confirming(_, session, _) => m == Ready(session) || RefusalOf(m, session)
    case Requesting => m == ListRequest || m.OpenRequest?
    case _ => false
  }

  /** Nor does the relay on a connection whose peer is one of the programs. */
  lemma RelayNeverSurprised(w: World, t: TaskId, m: Message)
    requires Occurs(w) && Tied(w) && Possible(w, Turn(Receive(t, m))) && w.peers[t].Client?
    ensures Expected(w.relay.tasks[t], m)
  {
    OccursSound(w);
    var p, log := w.peers[t], w.relay.logs[t];
    assert Faithful(p, log);
    assert PhaseLog(w.relay.tasks[t], log);
    if log.heard != [] {
      assert log.heard[0] == p.sent[0];
    }
  }

  /** Both ends of a control channel agree on the heartbeat; without it no Ping is ever on its way. */
  lemma HeartbeatAgreed(w: World, t: TaskId)
    requires Occurs(w) && Tied(w) && t < |w.peers| && w.peers[t].Client? && w.peers[t].plan.ControlPlan?
    ensures w.peers[t].phase.Controlling? && w.relay.tasks[t].Serving? ==>
      w.peers[t].phase.heartbeat == w.relay.tasks[t].heartbeat == OffersHeartbeat(w.peers[t].plan.features)
    ensures !OffersHeartbeat(w.peers[t].plan.features) ==> Ping !in w.peers[t].sent
  {
    OccursSound(w);
    var p, log := w.peers[t], w.relay.logs[t];
    assert Faithful(p, log);
    assert PhaseLog(w.relay.tasks[t], log);
    if log.heard != [] {
      assert log.heard[0] == p.sent[0];
    }
  }

  /** A client that waits and a relay task that waits are never waiting for each other, idle control channels apart. */
  lemma NoMutualWait(w: World, t: TaskId)
    requires Occurs(w) && Tied(w) && t < |w.peers| && w.peers[t].Client?
    requires Listens(w.peers[t].phase) && w.peers[t].got == |w.relay.logs[t].said|
    requires Reads(w.relay.tasks[t]) && |w.relay.logs[t].heard| == |w.peers[t].sent|
    ensures w.peers[t].phase.Controlling? && w.relay.tasks[t].Serving?
  {
    OccursSound(w);
    var p, log := w.peers[t], w.relay.logs[t];
    assert Faithful(p, log);
    assert PhaseLog(w.relay.tasks[t], log);
    assert log.heard == p.sent;
  }

  /**
   A bridged controller program asked for exactly this target and session; the stream it is bridged to was
   let in with the target's own token, and when a session program is at its far end, that program was started
   for this target and session, has said Ready and is bridged too.
   */
  lemma OpenerMeetsItsSession(w: World, t: TaskId)
    requires Occurs(w) && Tied(w) && t < |w.peers| && w.relay.tasks[t].Bridging?
    ensures var k := w.relay.tasks[t].stream; k < |w.peers| && k != t
    ensures var task, k := w.relay.tasks[t], w.relay.tasks[t].stream;
      && (w.peers[t].Client? ==>
            w.peers[t].plan.OpenPlan? && w.peers[t].plan.target == task.target && w.peers[t].plan.session == task.session)
      && (w.peers[k].Client? ==>
            && w.peers[k].plan.SessionPlan?
            && w.peers[k].plan.device == task.target && w.peers[k].plan.session == task.session
            && |w.peers[k].sent| == 3 && w.peers[k].sent[2] == Ready(task.session)
            && w.peers[k].phase == Ended(Bridged))
  {
    OccursSound(w);
    BridgedLogs(w.relay, t);
    var k := w.relay.tasks[t].stream;
    assert Faithful(w.peers[t], w.relay.logs[t]) && Faithful(w.peers[k], w.relay.logs[k]);
  }

  /**
   The relay lets a program in exactly when the token files have the program's own token for its role and
   device, and takes over its device and its offer of a heartbeat.
   */
  lemma GreetingUnderstood(w: World, t: TaskId, m: Message)
    requires Occurs(w) && Tied(w) && Possible(w, Turn(Receive(t, m))) && w.peers[t].Client?
    requires w.relay.tasks[t].Greeting?
    ensures w.peers[t].sent != [] && m == w.peers[t].sent[0]
    ensures var auth, next := w.relay.auth, Next(w.relay, Receive(t, m)).tasks[t];
      match w.peers[t].plan
      case ControlPlan(device, token, features) =>
        next == if Auth.Admits(auth, RoleAgent, Some(device), token)
                then Welcoming(RoleAgent, Some(device), OffersHeartbeat(features)) else Done
      case SessionPlan(device, token, _) =>
        next == if Auth.Admits(auth, RoleAgentSession, Some(device), token)
                then Welcoming(RoleAgentSession, Some(device), false) else Done
      case OpenPlan(_, token, _) =>
        next == if Auth.Admits(auth, RoleController, None, token) then Welcoming(RoleController, None, false) else Done
      case ListPlan(token) =>
        next == if Auth.Admits(auth, RoleController, None, token) then Welcoming(RoleController, None, false) else Done
  {
    OccursSound(w);
    var p, log := w.peers[t], w.relay.logs[t];
    assert Faithful(p, log);
    assert PhaseLog(w.relay.tasks[t], log);
    hide Inv;
    hide Auth.Admits;
    GreetingStep(w.relay, t, m);
  }

  lemma GreetingStep(r: Relay, t: TaskId, m: Message)
    requires Shape(r) && CanReceive(r, t) && r.tasks[t].Greeting?
    ensures |Next(r, Receive(t, m)).tasks| == |r.tasks|
    ensures Next(r, Receive(t, m)).tasks[t] ==
      if m.Hello? && m.version == PROTOCOL_VERSION && Auth.Admits(r.auth, m.role, m.deviceId, m.token)
      then Welcoming(m.role, m.deviceId, OffersHeartbeat(m.features)) else Done
  {
    hide Auth.Admits;
  }

  /** The relay turns the request of a program into the work that program came for. */
  lemma RequestUnderstood(w: World, t: TaskId, m: Message)
    requires Occurs(w) && Tied(w) && Possible(w, Turn(Receive(t, m))) && w.peers[t].Client?
    requires w.relay.tasks[t].Requesting? || w.relay.tasks[t].Attaching?
    ensures |w.peers[t].sent| > 1 && m == w.peers[t].sent[1]
    ensures var next := Next(w.relay, Receive(t, m)).tasks[t];
      match w.peers[t].plan
      case ControlPlan(_, _, _) => false
      case SessionPlan(device, _, session) => next == Locating(device, session)
      case OpenPlan(target, _, session) => next == Finding(target, session)
      case ListPlan(_) => next == Counting
  {
    OccursSound(w);
    assert Faithful(w.peers[t], w.relay.logs[t]);
    assert PhaseLog(w.relay.tasks[t], w.relay.logs[t]);
    hide Inv;
    hide Faithful;
    hide PhaseLog;
    hide Next;
    RequestSent(w.peers[t], w.relay.logs[t], w.relay.tasks[t], m);
    RequestStep(w.relay, t, m);
  }

  lemma RequestSent(p: Peer, log: Log, task: Task, m: Message)
    requires p.Client? && Faithful(p, log) && PhaseLog(task, log) && NextFrame(p.sent, |log.heard|, m)
    requires task.Requesting? || task.Attaching?
    ensures |p.sent| > 1 && m == p.sent[1]
    ensures match p.plan
      case ControlPlan(_, _, _) => false
      case SessionPlan(device, _, session) => task == Attaching(device) && m == SessionAttach(session)
      case OpenPlan(target, _, session) => task.Requesting? && m == OpenRequest(target, session)
      case ListPlan(_) => task.Requesting? && m == ListRequest
  {
    assert log.heard[0] == p.sent[0];
  }

  lemma RequestStep(r: Relay, t: TaskId, m: Message)
    requires Shape(r) && CanReceive(r, t) && (r.tasks[t].Requesting? || r.tasks[t].Attaching?)
    ensures |Next(r, Receive(t, m)).tasks| == |r.tasks|
    ensures var next := Next(r, Receive(t, m)).tasks[t];
      && (r.tasks[t].Attaching? && m.SessionAttach? ==> next == Locating(r.tasks[t].device, m.sessionId))
      && (r.tasks[t].Requesting? && m.OpenRequest? ==> next == Finding(m.target, m.sessionId))
      && (r.tasks[t].Requesting? && m == ListRequest ==> next == Counting)
  {
  }
}
