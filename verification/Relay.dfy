/**
 The relay of src/server.rs as a step system. Every lock-protected section, channel operation and whole
 frame read or written is one atomic step; the tasks of all connections interleave freely, and what the
 peers send, when they fail and when deadlines pass is left entirely open.
 */
module Relay {
  import opened Bytes
  import opened Messages
  import Auth

  const MAX_CONNECTIONS: nat := 128
  const MAX_PENDING_SESSIONS_PER_DEVICE: nat := 32

  type TaskId = nat
  type GenId = nat

  // ---------------------------------------------------------------- state

  /** One connection handler, by the await point it is suspended at. */
  datatype Task =
    // handle_connection
    | Greeting
    | Welcoming(role: Role, id: Option<DeviceId>, heartbeat: bool)
    // handle_agent
    | Registering(device: DeviceId, heartbeat: bool)
    | Replacing(device: DeviceId, gen: GenId, previous: GenId, heartbeat: bool)
    | Serving(device: DeviceId, gen: GenId, heartbeat: bool)
    | Draining(device: DeviceId, gen: GenId)
    | Failing(device: DeviceId, gen: GenId, batch: set<TaskId>)
    | Unregistering(device: DeviceId, gen: GenId)
    | Leaving(device: DeviceId, gen: GenId)
    // handle_agent_session
    | Attaching(device: DeviceId)
    | Locating(device: DeviceId, session: SessionId)
    | Claiming(device: DeviceId, session: SessionId, gen: GenId)
    | Accepting(device: DeviceId, session: SessionId, sender: TaskId)
    | Confirming(device: DeviceId, session: SessionId, sender: TaskId)
    | Dismissing(device: DeviceId, session: SessionId, reason: string)
    | HandedOff(device: DeviceId, session: SessionId, receiver: TaskId)
    // handle_controller
    | Requesting
    | Counting
    | Listing(devices: set<DeviceId>)
    | Finding(target: DeviceId, session: SessionId)
    | Enrolling(target: DeviceId, session: SessionId, gen: GenId)
    | Queueing(target: DeviceId, session: SessionId, gen: GenId)
    | Waiting(target: DeviceId, session: SessionId, gen: GenId)
    | Cleaning(target: DeviceId, session: SessionId, gen: GenId, reason: string, answer: bool)
    | Answering(target: DeviceId, session: SessionId, sender: TaskId, reason: string)
    | Replying(target: DeviceId, session: SessionId, reason: string)
    | Granting(target: DeviceId, session: SessionId, stream: TaskId)
    | Bridging(target: DeviceId, session: SessionId, stream: TaskId)
    | Done

  /** Where the response sender of a controller is. */
  datatype Place = Unborn | InMap | Held(task: TaskId) | InBatch(task: TaskId) | Spent

  /** What the response receiver would find. */
  datatype Inbox = Empty | Stream(from: TaskId) | Refusal(reason: string) | Closed | Consumed

  /** The generation and session id a sender was registered under. */
  datatype Home = Home(gen: GenId, session: SessionId)

  /** The one-shot response channel of a controller task. */
  datatype Chan = Chan(home: Option<Home>, place: Place, inbox: Inbox, listening: bool)

  datatype Request = Request(controller: TaskId, session: SessionId)

  /** A `Device` object; `requested`, `opens` and `successor` are history. */
  datatype Generation = Generation(
    device: DeviceId,
    handler: TaskId,
    pending: map<SessionId, TaskId>,
    queue: seq<Request>,
    accepting: bool,              // the open receiver still exists
    armed: bool,                  // the shutdown sender has not been taken
    requested: seq<Request>,
    opens: seq<Request>,
    successor: Option<GenId>)

  /** Whole frames a task has read and written, and the token snapshot that let its peer in. */
  datatype Log = Log(heard: seq<Message>, said: seq<Message>, admitted: Option<Auth.Snapshot>)

  datatype Relay = Relay(
    free: nat,
    auth: Auth.Snapshot,
    tasks: seq<Task>,
    chans: seq<Chan>,
    logs: seq<Log>,
    gens: seq<Generation>,
    devices: map<DeviceId, GenId>)

  const IDLE: Chan := Chan(None, Unborn, Empty, false)

  function Start(auth: Auth.Snapshot): Relay {
    Relay(MAX_CONNECTIONS, auth, [], [], [], [], map[])
  }

  predicate Shape(r: Relay) {
    |r.chans| == |r.tasks| && |r.logs| == |r.tasks|
  }

  // ---------------------------------------------------------------- the objects behind the locks

  /** `register_pending` on the map behind the lock. */
  predicate Registrable<T>(pending: map<SessionId, T>, session: SessionId) {
    |pending| < MAX_PENDING_SESSIONS_PER_DEVICE && session !in pending
  }

  /** No pending map exceeds its limit. */
  ghost predicate PendingWithin(r: Relay) {
    forall g: nat :: g < |r.gens| ==> |r.gens[g].pending| <= MAX_PENDING_SESSIONS_PER_DEVICE
  }

  /** A send into a one-shot channel; the value is lost when the receiver is gone. */
  function Sent(ch: Chan, value: Inbox): Chan {
    ch.(place := Spent, inbox := if ch.listening then value else ch.inbox)
  }

  /** The receiver is gone; an unread value goes with it. */
  function Deaf(ch: Chan): Chan {
    ch.(listening := false, inbox := Consumed)
  }

  /** Permits inside an unread value. */
  function InboxWeight(ch: Chan): nat {
    if ch.inbox.Stream? then 1 else 0
  }

  /** Permits a task holds. */
  function Weight(task: Task): nat {
    match task
    case Done => 0
    case HandedOff(_, _, _) => 0
    case Granting(_, _, _) => 2
    case Bridging(_, _, _) => 2
    case _ => 1
  }

  function AcceptedFeatures(heartbeat: bool): seq<string> {
    if heartbeat then [HEARTBEAT_FEATURE] else []
  }

  // ---------------------------------------------------------------- steps

  datatype Action =
    | Arrive                              // a TCP connection gets a permit
    | Reload(auth: Auth.Snapshot)         // the token files were re-read
    | Receive(t: TaskId, m: Message)      // a whole frame has been read
    | Write(t: TaskId)                    // the pending reply is out
    | Fail(t: TaskId)                     // read or write error, or a deadline
    | Lock(t: TaskId)                     // the next lock-protected section
    | Enqueue(t: TaskId)                  // `open_tx.send` completes
    | Pop(t: TaskId)                      // the `open_rx.recv` arm
    | Lose(t: TaskId)                     // the same, but the writer is gone
    | Stop(t: TaskId)                     // the shutdown arm
    | Resolve(t: TaskId, c: TaskId)       // `fail_pending` sends to one of its senders
    | Collect(t: TaskId)                  // `response_rx` yields
    | Expire(t: TaskId)                   // the open deadline passes
    | Finish(t: TaskId)                   // whatever else ends a phase

  /** What the step waits for. */
  predicate Enabled(r: Relay, a: Action)
    requires Shape(r)
  {
    match a
    case Arrive => CanArrive(r)
    case Reload(_) => true
    case Receive(t, _) => CanReceive(r, t)
    case Write(t) => CanWrite(r, t)
    case Fail(t) => CanFail(r, t)
    case Lock(t) => CanLock(r, t)
    case Enqueue(t) => CanEnqueue(r, t)
    case Pop(t) => CanPop(r, t)
    case Lose(t) => CanPop(r, t)
    case Stop(t) => CanStop(r, t)
    case Resolve(t, c) => CanResolve(r, t, c)
    case Collect(t) => CanCollect(r, t)
    case Expire(t) => CanExpire(r, t)
    case Finish(t) => CanFinish(r, t)
  }

  function Next(r: Relay, a: Action): (n: Relay)
    requires Shape(r) && Enabled(r, a)
    ensures Shape(n)
  {
    match a
    case Arrive => OnArrive(r)
    case Reload(auth) => r.(auth := auth)
    case Receive(t, m) => OnReceive(r, t, m)
    case Write(t) => OnWrite(r, t)
    case Fail(t) => OnFail(r, t)
    case Lock(t) => OnLock(r, t)
    case Enqueue(t) => OnEnqueue(r, t)
    case Pop(t) => OnPop(r, t)
    case Lose(t) => OnLose(r, t)
    case Stop(t) => OnStop(r, t)
    case Resolve(t, c) => OnResolve(r, t, c)
    case Collect(t) => OnCollect(r, t)
    case Expire(t) => OnExpire(r, t)
    case Finish(t) => OnFinish(r, t)
  }

  /** Phases that wait for a frame. */
  predicate Reads(task: Task) {
    task.Greeting? || task.Serving? || task.Attaching? || task.Confirming? || task.Requesting?
  }

  /** Phases that write one frame. */
  predicate Writes(task: Task) {
    || task.Welcoming? || task.Accepting? || task.Dismissing? || task.Listing? || task.Replying? || task.Granting?
  }

  /** Phases that wait for a mutex. */
  predicate Locks(task: Task) {
    || task.Registering? || task.Replacing? || task.Draining? || task.Unregistering? || task.Locating?
    || task.Claiming? || task.Counting? || task.Finding? || task.Enrolling? || task.Cleaning?
  }

  /** Object references are never dangling; with the invariants below this always holds. */
  predicate GensKnown(r: Relay, task: Task) {
    && (forall d :: d in r.devices ==> r.devices[d] < |r.gens|)
    && match task
       case Replacing(_, _, previous, _) => previous < |r.gens|
       case Draining(_, gen) => gen < |r.gens|
       case Claiming(_, session, gen) =>
         gen < |r.gens| && (session in r.gens[gen].pending ==> r.gens[gen].pending[session] < |r.chans|)
       case Enrolling(_, _, gen) => gen < |r.gens|
       case Cleaning(_, session, gen, _, _) =>
         gen < |r.gens| && (session in r.gens[gen].pending ==> r.gens[gen].pending[session] < |r.chans|)
       case _ => true
  }

  function Goto(r: Relay, t: TaskId, task: Task): (n: Relay)
    requires t < |r.tasks|
    ensures Shape(r) ==> Shape(n)
  {
    r.(tasks := r.tasks[t := task])
  }

  /** The task ends and gives back what it holds. */
  function End(r: Relay, t: TaskId): (n: Relay)
    requires t < |r.tasks|
    ensures Shape(r) ==> Shape(n)
  {
    r.(tasks := r.tasks[t := Done], free := r.free + Weight(r.tasks[t]))
  }

  function Heard(r: Relay, t: TaskId, m: Message): (n: Relay)
    requires t < |r.logs|
    ensures Shape(r) ==> Shape(n)
  {
    r.(logs := r.logs[t := r.logs[t].(heard := r.logs[t].heard + [m])])
  }

  function Said(r: Relay, t: TaskId, m: Message): (n: Relay)
    requires t < |r.logs|
    ensures Shape(r) ==> Shape(n)
  {
    r.(logs := r.logs[t := r.logs[t].(said := r.logs[t].said + [m])])
  }

  /** The session task answers the controller with a refusal and ends. */
  function Refuse(r: Relay, t: TaskId, c: TaskId, reason: string): (n: Relay)
    requires t < |r.tasks|
    ensures Shape(r) ==> Shape(n)
  {
    End(if c < |r.chans| then r.(chans := r.chans[c := Sent(r.chans[c], Refusal(reason))]) else r, t)
  }

  /** The stream and its permit go to the controller, or back to the pool when it has given up. */
  function HandOff(r: Relay, t: TaskId, c: TaskId): (n: Relay)
    requires t < |r.tasks| && r.tasks[t].Confirming?
    ensures Shape(r) ==> Shape(n)
  {
    if c < |r.chans| && r.chans[c].listening then
      Goto(r.(chans := r.chans[c := Sent(r.chans[c], Stream(t))]), t,
           HandedOff(r.tasks[t].device, r.tasks[t].session, c))
    else
      End(if c < |r.chans| then r.(chans := r.chans[c := Sent(r.chans[c], Stream(t))]) else r, t)
  }

  predicate CanArrive(r: Relay) {
    r.free > 0
  }

  function OnArrive(r: Relay): (n: Relay)
    requires Shape(r) && CanArrive(r)
    ensures Shape(n)
  {
    r.(free := r.free - 1, tasks := r.tasks + [Greeting], chans := r.chans + [IDLE],
       logs := r.logs + [Log([], [], None)])
  }

  predicate CanReceive(r: Relay, t: TaskId) {
    t < |r.tasks| && Reads(r.tasks[t])
  }

  function OnReceive(r: Relay, t: TaskId, m: Message): (n: Relay)
    requires Shape(r) && CanReceive(r, t)
    ensures Shape(n)
  {
    React(Heard(r, t, m), t, m)
  }

  /** `r` already records the frame as heard. */
  function React(r: Relay, t: TaskId, m: Message): (n: Relay)
    requires Shape(r) && CanReceive(r, t)
    ensures Shape(n)
  {
    match r.tasks[t]
    case Greeting =>
      if m.Hello? && m.version == PROTOCOL_VERSION && Auth.Admits(r.auth, m.role, m.deviceId, m.token) then
        Goto(r.(logs := r.logs[t := r.logs[t].(admitted := Some(r.auth))]), t,
             Welcoming(m.role, m.deviceId, OffersHeartbeat(m.features)))
      else
        End(r, t)
    case Serving(device, gen, _) =>
      if m == Ping then Said(r, t, Pong) else Goto(r, t, Draining(device, gen))
    case Attaching(device) =>
      if m.SessionAttach? then Goto(r, t, Locating(device, m.sessionId)) else End(r, t)
    case Confirming(device, session, sender) =>
      if m == Ready(session) then HandOff(r, t, sender)
      else if m.Failed? && m.sessionId == session then Refuse(r, t, sender, m.reason)
      else Refuse(r, t, sender, "unexpected agent session response")
    case Requesting =>
      if m == ListRequest then Goto(r, t, Counting)
      else if m.OpenRequest? then Goto(r, t, Finding(m.target, m.sessionId))
      else End(r, t)
    case _ => r
  }

  /** The frame a writing phase is about to put on the wire. */
  function Reply(task: Task): Message
    requires Writes(task)
  {
    match task
    case Welcoming(_, _, heartbeat) => HelloOk(AcceptedFeatures(heartbeat))
    case Accepting(_, session, _) => SessionAccepted(session)
    case Dismissing(_, session, reason) => Failed(session, reason)
    case Listing(devices) => DeviceList(devices)
    case Replying(_, session, reason) => Failed(session, reason)
    case Granting(_, session, _) => Ready(session)
  }

  predicate CanWrite(r: Relay, t: TaskId) {
    t < |r.tasks| && Writes(r.tasks[t])
  }

  function OnWrite(r: Relay, t: TaskId): (n: Relay)
    requires Shape(r) && CanWrite(r, t)
    ensures Shape(n)
  {
    var s := Said(r, t, Reply(r.tasks[t]));
    match r.tasks[t]
    case Welcoming(RoleController, _, _) => Goto(s, t, Requesting)
    case Welcoming(RoleAgent, Some(device), heartbeat) => Goto(s, t, Registering(device, heartbeat))
    case Welcoming(RoleAgentSession, Some(device), _) => Goto(s, t, Attaching(device))
    case Accepting(device, session, sender) => Goto(s, t, Confirming(device, session, sender))
    case Granting(target, session, stream) => Goto(s, t, Bridging(target, session, stream))
    case _ => End(s, t)
  }

  predicate CanFail(r: Relay, t: TaskId) {
    t < |r.tasks| && (Reads(r.tasks[t]) || Writes(r.tasks[t]))
  }

  function OnFail(r: Relay, t: TaskId): (n: Relay)
    requires Shape(r) && CanFail(r, t)
    ensures Shape(n)
  {
    match r.tasks[t]
    case Serving(device, gen, _) => Goto(r, t, Draining(device, gen))
    case Accepting(_, _, sender) => Refuse(r, t, sender, "could not accept agent session")
    case Confirming(_, _, sender) => Refuse(r, t, sender, "agent session did not become ready")
    case _ => End(r, t)
  }

  predicate CanLock(r: Relay, t: TaskId) {
    t < |r.tasks| && Locks(r.tasks[t]) && GensKnown(r, r.tasks[t])
  }

  function OnLock(r: Relay, t: TaskId): (n: Relay)
    requires Shape(r) && CanLock(r, t)
    ensures Shape(n)
  {
    match r.tasks[t]
    case Registering(_, _) => Register(r, t)
    case Replacing(_, _, _, _) => Replace(r, t)
    case Draining(_, _) => Drain(r, t)
    case Unregistering(_, _) => Unregister(r, t)
    case Locating(_, _) => Locate(r, t)
    case Claiming(_, _, _) => Claim(r, t)
    case Counting => Count(r, t)
    case Finding(_, _) => Find(r, t)
    case Enrolling(_, _, _) => Enrol(r, t)
    case Cleaning(_, _, _, _, _) => CleanUp(r, t)
  }

  /** `devices.insert` together with the new `Device` object. */
  function Register(r: Relay, t: TaskId): (n: Relay)
    requires CanLock(r, t) && r.tasks[t].Registering?
    ensures Shape(r) ==> Shape(n)
  {
    var device, heartbeat, gen := r.tasks[t].device, r.tasks[t].heartbeat, |r.gens|;
    var newcomer := Generation(device, t, map[], [], true, true, [], [], None);
    if device in r.devices then
      var previous := r.devices[device];
      Goto(r.(gens := r.gens[previous := r.gens[previous].(successor := Some(gen))] + [newcomer],
              devices := r.devices[device := gen]),
           t, Replacing(device, gen, previous, heartbeat))
    else
      Goto(r.(gens := r.gens + [newcomer], devices := r.devices[device := gen]), t, Serving(device, gen, heartbeat))
  }

  /** The replaced generation's shutdown sender is taken and used. */
  function Replace(r: Relay, t: TaskId): (n: Relay)
    requires CanLock(r, t) && r.tasks[t].Replacing?
    ensures Shape(r) ==> Shape(n)
  {
    var previous := r.tasks[t].previous;
    Goto(r.(gens := r.gens[previous := r.gens[previous].(armed := false)]), t,
         Serving(r.tasks[t].device, r.tasks[t].gen, r.tasks[t].heartbeat))
  }

  /** `fail_pending` swaps the whole map out and keeps its senders. */
  function Drain(r: Relay, t: TaskId): (n: Relay)
    requires CanLock(r, t) && r.tasks[t].Draining?
    ensures Shape(r) ==> Shape(n)
  {
    var gen := r.tasks[t].gen;
    var batch := r.gens[gen].pending.Values;
    Goto(r.(gens := r.gens[gen := r.gens[gen].(pending := map[])],
            chans := seq(|r.chans|, c requires 0 <= c < |r.chans| =>
                           if c in batch then r.chans[c].(place := InBatch(t)) else r.chans[c])),
         t, Failing(r.tasks[t].device, gen, batch))
  }

  /** `unregister` removes the entry only if it is the handler's own. */
  function Unregister(r: Relay, t: TaskId): (n: Relay)
    requires CanLock(r, t) && r.tasks[t].Unregistering?
    ensures Shape(r) ==> Shape(n)
  {
    var device, gen := r.tasks[t].device, r.tasks[t].gen;
    var left := if device in r.devices && r.devices[device] == gen then r.devices - {device} else r.devices;
    Goto(r.(devices := left), t, Leaving(device, gen))
  }

  function Locate(r: Relay, t: TaskId): (n: Relay)
    requires CanLock(r, t) && r.tasks[t].Locating?
    ensures Shape(r) ==> Shape(n)
  {
    var device, session := r.tasks[t].device, r.tasks[t].session;
    if device in r.devices then Goto(r, t, Claiming(device, session, r.devices[device]))
    else Goto(r, t, Dismissing(device, session, "device is offline: " + device))
  }

  /** `take_pending`: the map loses the entry. */
  function WithoutPending(r: Relay, gen: GenId, session: SessionId): (n: Relay)
    requires gen < |r.gens|
    ensures Shape(r) ==> Shape(n)
  {
    r.(gens := r.gens[gen := r.gens[gen].(pending := r.gens[gen].pending - {session})])
  }

  /** The agent session takes the sender of the controller it was opened for. */
  function Claim(r: Relay, t: TaskId): (n: Relay)
    requires CanLock(r, t) && r.tasks[t].Claiming?
    ensures Shape(r) ==> Shape(n)
  {
    var device, session, gen := r.tasks[t].device, r.tasks[t].session, r.tasks[t].gen;
    if session in r.gens[gen].pending then
      var c := r.gens[gen].pending[session];
      var s := WithoutPending(r, gen, session);
      Goto(s.(chans := s.chans[c := s.chans[c].(place := Held(t))]), t, Accepting(device, session, c))
    else
      Goto(r, t, Dismissing(device, session, "SSH session is no longer waiting"))
  }

  function Count(r: Relay, t: TaskId): (n: Relay)
    requires CanLock(r, t) && r.tasks[t].Counting?
    ensures Shape(r) ==> Shape(n)
  {
    Goto(r, t, Listing(r.devices.Keys))
  }

  function Find(r: Relay, t: TaskId): (n: Relay)
    requires CanLock(r, t) && r.tasks[t].Finding?
    ensures Shape(r) ==> Shape(n)
  {
    var target, session := r.tasks[t].target, r.tasks[t].session;
    if target in r.devices then Goto(r, t, Enrolling(target, session, r.devices[target]))
    else Goto(r, t, Replying(target, session, "device is offline: " + target))
  }

  /** The controller's response channel is made and its sender put into the map. */
  function Enrol(r: Relay, t: TaskId): (n: Relay)
    requires Shape(r) && CanLock(r, t) && r.tasks[t].Enrolling?
    ensures Shape(n)
  {
    var target, session, gen := r.tasks[t].target, r.tasks[t].session, r.tasks[t].gen;
    if Registrable(r.gens[gen].pending, session) then
      Goto(r.(gens := r.gens[gen := r.gens[gen].(pending := r.gens[gen].pending[session := t])],
              chans := r.chans[t := Chan(Some(Home(gen, session)), InMap, Empty, true)]),
           t, Queueing(target, session, gen))
    else
      Goto(r, t, Replying(target, session, "device has too many pending SSH sessions"))
  }

  /**
   The controller takes its own entry out again, or whichever has its key by now; the sender found is kept
   to be answered, or dropped.
   */
  function CleanUp(r: Relay, t: TaskId): (n: Relay)
    requires CanLock(r, t) && r.tasks[t].Cleaning?
    ensures Shape(r) ==> Shape(n)
  {
    if r.tasks[t].session !in r.gens[r.tasks[t].gen].pending then
      Goto(r, t, Replying(r.tasks[t].target, r.tasks[t].session, r.tasks[t].reason))
    else if r.tasks[t].answer then
      Withdraw(r, t)
    else
      Discard(r, t)
  }

  function Withdraw(r: Relay, t: TaskId): (n: Relay)
    requires CanLock(r, t) && r.tasks[t].Cleaning? && r.tasks[t].session in r.gens[r.tasks[t].gen].pending
    ensures Shape(r) ==> Shape(n)
  {
    var session, gen := r.tasks[t].session, r.tasks[t].gen;
    var c, s := r.gens[gen].pending[session], WithoutPending(r, gen, session);
    Goto(s.(chans := s.chans[c := s.chans[c].(place := Held(t))]), t,
         Answering(r.tasks[t].target, session, c, r.tasks[t].reason))
  }

  function Discard(r: Relay, t: TaskId): (n: Relay)
    requires CanLock(r, t) && r.tasks[t].Cleaning? && r.tasks[t].session in r.gens[r.tasks[t].gen].pending
    ensures Shape(r) ==> Shape(n)
  {
    var session, gen := r.tasks[t].session, r.tasks[t].gen;
    var c, s := r.gens[gen].pending[session], WithoutPending(r, gen, session);
    Goto(s.(chans := s.chans[c := Sent(s.chans[c], Closed)]), t,
         Replying(r.tasks[t].target, session, r.tasks[t].reason))
  }

  predicate CanEnqueue(r: Relay, t: TaskId) {
    && t < |r.tasks| && r.tasks[t].Queueing? && r.tasks[t].gen < |r.gens|
    && (r.gens[r.tasks[t].gen].accepting ==> |r.gens[r.tasks[t].gen].queue| < MAX_PENDING_SESSIONS_PER_DEVICE)
  }

  function OnEnqueue(r: Relay, t: TaskId): (n: Relay)
    requires Shape(r) && CanEnqueue(r, t)
    ensures Shape(n)
  {
    if r.gens[r.tasks[t].gen].accepting then Enqueued(r, t) else HungUp(r, t)
  }

  function Enqueued(r: Relay, t: TaskId): (n: Relay)
    requires CanEnqueue(r, t)
    ensures Shape(r) ==> Shape(n)
  {
    var task, gen := r.tasks[t], r.gens[r.tasks[t].gen];
    var request := Request(t, task.session);
    Goto(r.(gens := r.gens[task.gen := gen.(queue := gen.queue + [request], requested := gen.requested + [request])]),
         t, Waiting(task.target, task.session, task.gen))
  }

  /** The open receiver is gone: the controller drops its own receiver and cleans up. */
  function HungUp(r: Relay, t: TaskId): (n: Relay)
    requires Shape(r) && CanEnqueue(r, t)
    ensures Shape(n)
  {
    var task := r.tasks[t];
    Goto(r.(free := r.free + InboxWeight(r.chans[t]), chans := r.chans[t := Deaf(r.chans[t])]), t,
         Cleaning(task.target, task.session, task.gen, "device agent disconnected before session started", true))
  }

  predicate CanPop(r: Relay, t: TaskId) {
    t < |r.tasks| && r.tasks[t].Serving? && r.tasks[t].gen < |r.gens| && r.gens[r.tasks[t].gen].queue != []
  }

  function Popped(r: Relay, t: TaskId): (n: Relay)
    requires CanPop(r, t)
    ensures Shape(r) ==> Shape(n)
  {
    var gen := r.gens[r.tasks[t].gen];
    r.(gens := r.gens[r.tasks[t].gen := gen.(queue := gen.queue[1..], opens := gen.opens + [gen.queue[0]])])
  }

  function OnPop(r: Relay, t: TaskId): (n: Relay)
    requires Shape(r) && CanPop(r, t)
    ensures Shape(n)
  {
    Said(Popped(r, t), t, Open(r.gens[r.tasks[t].gen].queue[0].session))
  }

  function OnLose(r: Relay, t: TaskId): (n: Relay)
    requires CanPop(r, t)
    ensures Shape(r) ==> Shape(n)
  {
    Goto(Popped(r, t), t, Draining(r.tasks[t].device, r.tasks[t].gen))
  }

  predicate CanStop(r: Relay, t: TaskId) {
    t < |r.tasks| && r.tasks[t].Serving? && r.tasks[t].gen < |r.gens| && !r.gens[r.tasks[t].gen].armed
  }

  function OnStop(r: Relay, t: TaskId): (n: Relay)
    requires CanStop(r, t)
    ensures Shape(r) ==> Shape(n)
  {
    Goto(r, t, Draining(r.tasks[t].device, r.tasks[t].gen))
  }

  predicate CanResolve(r: Relay, t: TaskId, c: TaskId) {
    t < |r.tasks| && r.tasks[t].Failing? && c in r.tasks[t].batch && c < |r.chans|
  }

  function OnResolve(r: Relay, t: TaskId, c: TaskId): (n: Relay)
    requires CanResolve(r, t, c)
    ensures Shape(r) ==> Shape(n)
  {
    Goto(r.(chans := r.chans[c := Sent(r.chans[c], Refusal("device control connection ended"))]), t,
         Failing(r.tasks[t].device, r.tasks[t].gen, r.tasks[t].batch - {c}))
  }

  predicate CanCollect(r: Relay, t: TaskId)
    requires Shape(r)
  {
    && t < |r.tasks| && r.tasks[t].Waiting?
    && (r.chans[t].inbox.Stream? || r.chans[t].inbox.Refusal? || r.chans[t].inbox.Closed?)
  }

  function OnCollect(r: Relay, t: TaskId): (n: Relay)
    requires Shape(r) && CanCollect(r, t)
    ensures Shape(n)
  {
    var task := r.tasks[t];
    var s := r.(chans := r.chans[t := Deaf(r.chans[t])]);
    match r.chans[t].inbox
    case Stream(from) => Goto(s, t, Granting(task.target, task.session, from))
    case Refusal(reason) => Goto(s, t, Replying(task.target, task.session, reason))
    case _ => Goto(s, t, Cleaning(task.target, task.session, task.gen, "agent closed before accepting session", true))
  }

  predicate CanExpire(r: Relay, t: TaskId) {
    t < |r.tasks| && (r.tasks[t].Queueing? || r.tasks[t].Waiting?)
  }

  function OnExpire(r: Relay, t: TaskId): (n: Relay)
    requires Shape(r) && CanExpire(r, t)
    ensures Shape(n)
  {
    var task := r.tasks[t];
    Goto(r.(free := r.free + InboxWeight(r.chans[t]), chans := r.chans[t := Deaf(r.chans[t])]), t,
         Cleaning(task.target, task.session, task.gen, "agent did not respond in time", false))
  }

  predicate CanFinish(r: Relay, t: TaskId)
    requires Shape(r)
  {
    t < |r.tasks| && match r.tasks[t]
      case Failing(_, _, batch) => batch == {}
      case Leaving(_, gen) => gen < |r.gens|
      case Answering(_, _, sender, _) => sender < |r.chans|
      case Bridging(_, _, _) => true
      case _ => false
  }

  function OnFinish(r: Relay, t: TaskId): (n: Relay)
    requires Shape(r) && CanFinish(r, t)
    ensures Shape(n)
  {
    match r.tasks[t]
    case Failing(device, gen, _) => Goto(r, t, Unregistering(device, gen))
    case Leaving(_, gen) =>
      End(r.(gens := r.gens[gen := r.gens[gen].(accepting := false, queue := [])]), t)
    case Answering(target, session, sender, reason) =>
      Goto(r.(chans := r.chans[sender := Sent(r.chans[sender], Refusal(reason))]), t, Replying(target, session, reason))
    case Bridging(_, _, _) => End(r, t)
  }

  // ---------------------------------------------------------------- runs

  /** A run from the start: each state follows from the one before by an enabled action. */
  ghost predicate Run(states: seq<Relay>, actions: seq<Action>) {
    && |states| == |actions| + 1
    && (exists auth :: states[0] == Start(auth))
    && forall i :: 0 <= i < |actions| ==>
         Shape(states[i]) && Enabled(states[i], actions[i]) && states[i + 1] == Next(states[i], actions[i])
  }
}
