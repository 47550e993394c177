/** What each task has read and written so far, phase by phase. */
module RelayLogs {
  import opened Bytes
  import opened Messages
  import Auth
  import opened Relay

  /** The peer said Hello with the right version and was let in as `role` under the snapshot of that moment. */
  predicate Greeted(log: Log, role: Role, id: Option<DeviceId>) {
    && log.heard != [] && log.heard[0].Hello? && log.heard[0].version == PROTOCOL_VERSION
    && log.heard[0].role == role && log.heard[0].deviceId == id
    && log.admitted.Some? && Auth.Admits(log.admitted.value, role, id, log.heard[0].token)
  }

  /** Both ends take the heartbeat from the features the agent offered. */
  predicate Welcomed(log: Log) {
    && log.heard != [] && log.heard[0].Hello?
    && log.said != [] && log.said[0] == HelloOk(AcceptedFeatures(OffersHeartbeat(log.heard[0].features)))
  }

  predicate AgentLog(log: Log, device: DeviceId) {
    && Greeted(log, RoleAgent, Some(device)) && Welcomed(log)
    && forall i :: 1 <= i < |log.said| ==> ControlTraffic(log.said[i])
  }

  predicate SessionLog(log: Log, device: DeviceId, tail: seq<Message>, replies: seq<Message>) {
    && Greeted(log, RoleAgentSession, Some(device)) && Welcomed(log)
    && log.heard[1..] == tail && log.said[1..] == replies
  }

  predicate ControllerLog(log: Log, tail: seq<Message>, replies: seq<Message>) {
    && log.heard != [] && log.heard[0].Hello? && Greeted(log, RoleController, log.heard[0].deviceId) && Welcomed(log)
    && log.heard[1..] == tail && log.said[1..] == replies
  }

  predicate RefusalOf(m: Message, session: SessionId) {
    m.Failed? && m.sessionId == session
  }

  /** No connection ever carries more than its role allows: in particular one reply per request. */
  predicate Disciplined(log: Log) {
    log.said == [] ||
    (&& Welcomed(log)
     && match log.heard[0].role
        case RoleAgent => forall i :: 1 <= i < |log.said| ==> ControlTraffic(log.said[i])
        case RoleAgentSession =>
          |log.said| <= 2 && (|log.said| == 2 ==>
            |log.heard| >= 2 && log.heard[1].SessionAttach?
            && (log.said[1] == SessionAccepted(log.heard[1].sessionId) || RefusalOf(log.said[1], log.heard[1].sessionId)))
        case RoleController =>
          |log.said| <= 2 && (|log.said| == 2 ==>
            |log.heard| == 2
            && ((log.heard[1] == ListRequest && log.said[1].DeviceList?)
                || (log.heard[1].OpenRequest?
                    && (log.said[1] == Ready(log.heard[1].sessionId) || RefusalOf(log.said[1], log.heard[1].sessionId))))))
  }

  /** What a phase says about its connection's conversation. */
  datatype Talk =
    | Unheard
    | Introduced(role: Role, id: Option<DeviceId>, heartbeat: bool)
    | AsAgent(device: DeviceId, agreed: Option<bool>, begun: bool)
    | AsSession(device: DeviceId, tail: seq<Message>, replies: seq<Message>)
    | AsController(tail: seq<Message>, replies: seq<Message>)
    | Finished

  function TalkOf(task: Task): Talk {
    match task
    case Greeting => Unheard
    case Welcoming(role, id, heartbeat) => Introduced(role, id, heartbeat)
    case Registering(device, heartbeat) => AsAgent(device, Some(heartbeat), false)
    case Replacing(device, _, _, heartbeat) => AsAgent(device, Some(heartbeat), false)
    case Serving(device, _, heartbeat) => AsAgent(device, Some(heartbeat), true)
    case Draining(device, _) => AsAgent(device, None, true)
    case Failing(device, _, _) => AsAgent(device, None, true)
    case Unregistering(device, _) => AsAgent(device, None, true)
    case Leaving(device, _) => AsAgent(device, None, true)
    case Attaching(device) => AsSession(device, [], [])
    case Locating(device, session) => AsSession(device, [SessionAttach(session)], [])
    case Claiming(device, session, _) => AsSession(device, [SessionAttach(session)], [])
    case Accepting(device, session, _) => AsSession(device, [SessionAttach(session)], [])
    case Dismissing(device, session, _) => AsSession(device, [SessionAttach(session)], [])
    case Confirming(device, session, _) => AsSession(device, [SessionAttach(session)], [SessionAccepted(session)])
    case HandedOff(device, session, _) =>
      AsSession(device, [SessionAttach(session), Ready(session)], [SessionAccepted(session)])
    case Requesting => AsController([], [])
    case Counting => AsController([ListRequest], [])
    case Listing(_) => AsController([ListRequest], [])
    case Finding(target, session) => AsController([OpenRequest(target, session)], [])
    case Enrolling(target, session, _) => AsController([OpenRequest(target, session)], [])
    case Queueing(target, session, _) => AsController([OpenRequest(target, session)], [])
    case Waiting(target, session, _) => AsController([OpenRequest(target, session)], [])
    case Cleaning(target, session, _, _, _) => AsController([OpenRequest(target, session)], [])
    case Answering(target, session, _, _) => AsController([OpenRequest(target, session)], [])
    case Replying(target, session, _) => AsController([OpenRequest(target, session)], [])
    case Granting(target, session, _) => AsController([OpenRequest(target, session)], [])
    case Bridging(target, session, _) => AsController([OpenRequest(target, session)], [Ready(session)])
    case Done => Finished
  }

  predicate Matches(talk: Talk, log: Log) {
    match talk
    case Unheard => log == Log([], [], None)
    case Introduced(role, id, heartbeat) =>
      Greeted(log, role, id) && |log.heard| == 1 && log.said == [] && heartbeat == OffersHeartbeat(log.heard[0].features)
    case AsAgent(device, agreed, begun) =>
      && AgentLog(log, device)
      && (agreed.Some? ==> agreed.value == OffersHeartbeat(log.heard[0].features))
      && (!begun ==> |log.heard| == 1 && |log.said| == 1)
    case AsSession(device, tail, replies) => SessionLog(log, device, tail, replies)
    case AsController(tail, replies) => ControllerLog(log, tail, replies)
    case Finished => true
  }

  predicate PhaseLog(task: Task, log: Log) {
    Matches(TalkOf(task), log)
  }

  /** Without a frame read or written, a phase may only say the same or less. */
  predicate SaysNoMore(before: Talk, after: Talk) {
    || after == before || after == Finished
    || (before.AsAgent? && after.AsAgent? && after.device == before.device
        && (after.agreed == before.agreed || after.agreed == None) && (after.begun || !before.begun))
  }

  ghost predicate LogsOk(r: Relay)
    requires Shape(r)
  {
    forall t: nat :: t < |r.tasks| ==> PhaseLog(r.tasks[t], r.logs[t]) && Disciplined(r.logs[t])
  }

  /** A phase change that neither reads nor writes a frame. */
  lemma SilentLogs(r: Relay, n: Relay, t: TaskId)
    requires Shape(r) && Shape(n) && LogsOk(r) && t < |r.tasks| == |n.tasks|
    requires n.logs == r.logs && n.tasks == r.tasks[t := n.tasks[t]]
    requires SaysNoMore(TalkOf(r.tasks[t]), TalkOf(n.tasks[t]))
    ensures LogsOk(n)
  {
    hide AgentLog;
    hide SessionLog;
    hide ControllerLog;
    hide Disciplined;
    hide TalkOf;
    assert PhaseLog(r.tasks[t], r.logs[t]);
    assert PhaseLog(n.tasks[t], r.logs[t]);
    forall u: nat | u < |n.tasks|
      ensures PhaseLog(n.tasks[u], n.logs[u]) && Disciplined(n.logs[u])
    {
      assert PhaseLog(r.tasks[u], r.logs[u]) && Disciplined(r.logs[u]);
    }
  }

  lemma SpeakingLogs(r: Relay, n: Relay, t: TaskId)
    requires Shape(r) && Shape(n) && LogsOk(r) && t < |r.tasks| == |n.tasks|
    requires n.logs == r.logs[t := n.logs[t]] && n.tasks == r.tasks[t := n.tasks[t]]
    requires PhaseLog(n.tasks[t], n.logs[t]) && Disciplined(n.logs[t])
    ensures LogsOk(n)
  {
    hide PhaseLog;
    hide Disciplined;
    forall u: nat | u < |n.tasks|
      ensures PhaseLog(n.tasks[u], n.logs[u]) && Disciplined(n.logs[u])
    {
      if u != t {
        assert PhaseLog(r.tasks[u], r.logs[u]) && Disciplined(r.logs[u]);
      }
    }
  }

  lemma HeardTail(log: Log, m: Message)
    requires log.heard != []
    ensures (log.heard + [m])[1..] == log.heard[1..] + [m] && (log.heard + [m])[0] == log.heard[0]
  {
  }

  lemma SaidTail(log: Log, m: Message)
    requires log.said != []
    ensures (log.said + [m])[1..] == log.said[1..] + [m] && (log.said + [m])[0] == log.said[0]
  {
  }

  /** A first frame: Hello, or the end. */
  lemma HelloLog(r: Relay, t: TaskId, m: Message)
    requires Shape(r) && LogsOk(r) && CanReceive(r, t) && r.tasks[t].Greeting?
    ensures LogsOk(OnReceive(r, t, m))
  {
    assert PhaseLog(r.tasks[t], r.logs[t]);
    SpeakingLogs(r, OnReceive(r, t, m), t);
  }

  /** A frame on a control channel: Ping is answered, anything else ends the channel. */
  lemma ControlLog(r: Relay, t: TaskId, m: Message)
    requires Shape(r) && LogsOk(r) && CanReceive(r, t) && r.tasks[t].Serving?
    ensures LogsOk(OnReceive(r, t, m))
  {
    assert PhaseLog(r.tasks[t], r.logs[t]) && Disciplined(r.logs[t]);
    HeardTail(r.logs[t], m);
    SpeakingLogs(r, OnReceive(r, t, m), t);
  }

  /** The attach request of an agent session. */
  lemma AttachLog(r: Relay, t: TaskId, m: Message)
    requires Shape(r) && LogsOk(r) && CanReceive(r, t) && r.tasks[t].Attaching?
    ensures LogsOk(OnReceive(r, t, m))
  {
    assert PhaseLog(r.tasks[t], r.logs[t]) && Disciplined(r.logs[t]);
    HeardTail(r.logs[t], m);
    SpeakingLogs(r, OnReceive(r, t, m), t);
  }

  /** The frame that answers SessionAccepted, whatever it is. */
  lemma AnswerHeard(log: Log, device: DeviceId, session: SessionId, m: Message)
    requires SessionLog(log, device, [SessionAttach(session)], [SessionAccepted(session)]) && Disciplined(log)
    ensures var after := log.(heard := log.heard + [m]);
      && SessionLog(after, device, [SessionAttach(session), m], [SessionAccepted(session)]) && Disciplined(after)
  {
    HeardTail(log, m);
    assert log.said[1] == SessionAccepted(session) && log.heard[1] == SessionAttach(session);
  }

  /** An agent session's word on whether it is ready. */
  lemma ReadyLog(r: Relay, t: TaskId, m: Message)
    requires Shape(r) && LogsOk(r) && CanReceive(r, t) && r.tasks[t].Confirming?
    requires m == Ready(r.tasks[t].session)
    ensures LogsOk(OnReceive(r, t, m))
  {
    hide Disciplined;
    hide SessionLog;
    assert PhaseLog(r.tasks[t], r.logs[t]) && Disciplined(r.logs[t]);
    AnswerHeard(r.logs[t], r.tasks[t].device, r.tasks[t].session, m);
    SpeakingLogs(r, OnReceive(r, t, m), t);
  }

  lemma RefusedLog(r: Relay, t: TaskId, m: Message)
    requires Shape(r) && LogsOk(r) && CanReceive(r, t) && r.tasks[t].Confirming?
    requires m != Ready(r.tasks[t].session)
    ensures LogsOk(OnReceive(r, t, m))
  {
    hide Disciplined;
    hide SessionLog;
    assert PhaseLog(r.tasks[t], r.logs[t]) && Disciplined(r.logs[t]);
    AnswerHeard(r.logs[t], r.tasks[t].device, r.tasks[t].session, m);
    SpeakingLogs(r, OnReceive(r, t, m), t);
  }

  lemma RequestHeard(log: Log, m: Message)
    requires ControllerLog(log, [], []) && Disciplined(log)
    ensures var after := log.(heard := log.heard + [m]); ControllerLog(after, [m], []) && Disciplined(after)
  {
    HeardTail(log, m);
  }

  /** A controller's request. */
  lemma RequestLog(r: Relay, t: TaskId, m: Message)
    requires Shape(r) && LogsOk(r) && CanReceive(r, t) && r.tasks[t].Requesting?
    ensures LogsOk(OnReceive(r, t, m))
  {
    hide Disciplined;
    hide ControllerLog;
    assert PhaseLog(r.tasks[t], r.logs[t]) && Disciplined(r.logs[t]);
    RequestHeard(r.logs[t], m);
    SpeakingLogs(r, OnReceive(r, t, m), t);
  }

  lemma WelcomeLog(r: Relay, t: TaskId)
    requires Shape(r) && LogsOk(r) && CanWrite(r, t) && r.tasks[t].Welcoming?
    ensures LogsOk(OnWrite(r, t))
  {
    assert PhaseLog(r.tasks[t], r.logs[t]) && Disciplined(r.logs[t]);
    SpeakingLogs(r, OnWrite(r, t), t);
  }

  lemma SessionReplySaid(log: Log, device: DeviceId, session: SessionId, m: Message)
    requires SessionLog(log, device, [SessionAttach(session)], []) && Disciplined(log)
    requires m == SessionAccepted(session) || RefusalOf(m, session)
    ensures var after := log.(said := log.said + [m]);
      && SessionLog(after, device, [SessionAttach(session)], [m]) && Disciplined(after)
  {
    SaidTail(log, m);
    assert log.heard[1] == SessionAttach(session);
  }

  lemma SessionReplyLog(r: Relay, t: TaskId)
    requires Shape(r) && LogsOk(r) && CanWrite(r, t)
    requires r.tasks[t].Accepting? || r.tasks[t].Dismissing?
    ensures LogsOk(OnWrite(r, t))
  {
    hide Disciplined;
    hide SessionLog;
    assert PhaseLog(r.tasks[t], r.logs[t]) && Disciplined(r.logs[t]);
    SessionReplySaid(r.logs[t], r.tasks[t].device, r.tasks[t].session, Reply(r.tasks[t]));
    SpeakingLogs(r, OnWrite(r, t), t);
  }

  lemma ControllerReplySaid(log: Log, request: Message, m: Message)
    requires ControllerLog(log, [request], []) && Disciplined(log)
    requires || (request == ListRequest && m.DeviceList?)
             || (request.OpenRequest? && (m == Ready(request.sessionId) || RefusalOf(m, request.sessionId)))
    ensures var after := log.(said := log.said + [m]); ControllerLog(after, [request], [m]) && Disciplined(after)
  {
    SaidTail(log, m);
    assert log.heard[1] == request;
  }

  lemma ListReplyLog(r: Relay, t: TaskId)
    requires Shape(r) && LogsOk(r) && CanWrite(r, t) && r.tasks[t].Listing?
    ensures LogsOk(OnWrite(r, t))
  {
    hide Disciplined;
    hide ControllerLog;
    assert PhaseLog(r.tasks[t], r.logs[t]) && Disciplined(r.logs[t]);
    ControllerReplySaid(r.logs[t], ListRequest, Reply(r.tasks[t]));
    SpeakingLogs(r, OnWrite(r, t), t);
  }

  lemma RefusalReplyLog(r: Relay, t: TaskId)
    requires Shape(r) && LogsOk(r) && CanWrite(r, t) && r.tasks[t].Replying?
    ensures LogsOk(OnWrite(r, t))
  {
    hide Disciplined;
    hide ControllerLog;
    assert PhaseLog(r.tasks[t], r.logs[t]) && Disciplined(r.logs[t]);
    ControllerReplySaid(r.logs[t], OpenRequest(r.tasks[t].target, r.tasks[t].session), Reply(r.tasks[t]));
    SpeakingLogs(r, OnWrite(r, t), t);
  }

  lemma GrantReplyLog(r: Relay, t: TaskId)
    requires Shape(r) && LogsOk(r) && CanWrite(r, t) && r.tasks[t].Granting?
    ensures LogsOk(OnWrite(r, t))
  {
    hide Disciplined;
    hide ControllerLog;
    assert PhaseLog(r.tasks[t], r.logs[t]) && Disciplined(r.logs[t]);
    ControllerReplySaid(r.logs[t], OpenRequest(r.tasks[t].target, r.tasks[t].session), Reply(r.tasks[t]));
    SpeakingLogs(r, OnWrite(r, t), t);
  }

  lemma OpenLog(r: Relay, t: TaskId)
    requires Shape(r) && LogsOk(r) && CanPop(r, t)
    ensures LogsOk(OnPop(r, t))
  {
    assert PhaseLog(r.tasks[t], r.logs[t]) && Disciplined(r.logs[t]);
    SpeakingLogs(r, OnPop(r, t), t);
  }

  lemma LogsDrain(r: Relay, t: TaskId)
    requires Shape(r) && LogsOk(r) && CanLock(r, t) && r.tasks[t].Draining?
    ensures LogsOk(Drain(r, t))
  {
    hide LogsOk;
    SilentLogs(r, Drain(r, t), t);
  }

  lemma LogsClaim(r: Relay, t: TaskId)
    requires Shape(r) && LogsOk(r) && CanLock(r, t) && r.tasks[t].Claiming?
    ensures LogsOk(Claim(r, t))
  {
    hide LogsOk;
    SilentLogs(r, Claim(r, t), t);
  }

  lemma LogsEnrol(r: Relay, t: TaskId)
    requires Shape(r) && LogsOk(r) && CanLock(r, t) && r.tasks[t].Enrolling?
    ensures LogsOk(Enrol(r, t))
  {
    hide LogsOk;
    SilentLogs(r, Enrol(r, t), t);
  }

  lemma LogsCleanUp(r: Relay, t: TaskId)
    requires Shape(r) && LogsOk(r) && CanLock(r, t) && r.tasks[t].Cleaning?
    ensures LogsOk(CleanUp(r, t))
  {
    hide LogsOk;
    SilentLogs(r, CleanUp(r, t), t);
  }

  lemma LogsFail(r: Relay, t: TaskId)
    requires Shape(r) && LogsOk(r) && CanFail(r, t)
    ensures LogsOk(OnFail(r, t))
  {
    hide LogsOk;
    SilentLogs(r, OnFail(r, t), t);
  }

  lemma LogsEnqueue(r: Relay, t: TaskId)
    requires Shape(r) && LogsOk(r) && CanEnqueue(r, t)
    ensures LogsOk(OnEnqueue(r, t))
  {
    hide LogsOk;
    if r.gens[r.tasks[t].gen].accepting {
      SilentLogs(r, Enqueued(r, t), t);
    } else {
      SilentLogs(r, HungUp(r, t), t);
    }
  }

  lemma LogsCollect(r: Relay, t: TaskId)
    requires Shape(r) && LogsOk(r) && CanCollect(r, t)
    ensures LogsOk(OnCollect(r, t))
  {
    hide LogsOk;
    SilentLogs(r, OnCollect(r, t), t);
  }

  lemma LogsFinish(r: Relay, t: TaskId)
    requires Shape(r) && LogsOk(r) && CanFinish(r, t)
    ensures LogsOk(OnFinish(r, t))
  {
    hide LogsOk;
    SilentLogs(r, OnFinish(r, t), t);
  }

  lemma LogsLock(r: Relay, t: TaskId)
    requires Shape(r) && LogsOk(r) && CanLock(r, t)
    ensures LogsOk(OnLock(r, t))
  {
    hide LogsOk;
    match r.tasks[t]
    case Registering(_, _) => SilentLogs(r, Register(r, t), t);
    case Replacing(_, _, _, _) => SilentLogs(r, Replace(r, t), t);
    case Draining(_, _) => LogsDrain(r, t);
    case Unregistering(_, _) => SilentLogs(r, Unregister(r, t), t);
    case Locating(_, _) => SilentLogs(r, Locate(r, t), t);
    case Claiming(_, _, _) => LogsClaim(r, t);
    case Counting => SilentLogs(r, Count(r, t), t);
    case Finding(_, _) => SilentLogs(r, Find(r, t), t);
    case Enrolling(_, _, _) => LogsEnrol(r, t);
    case Cleaning(_, _, _, _, _) => LogsCleanUp(r, t);
  }

  lemma LogsArrive(r: Relay)
    requires Shape(r) && LogsOk(r) && CanArrive(r)
    ensures LogsOk(OnArrive(r))
  {
    hide Disciplined;
    var n := OnArrive(r);
    forall u: nat | u < |n.tasks|
      ensures PhaseLog(n.tasks[u], n.logs[u]) && Disciplined(n.logs[u])
    {
      if u < |r.tasks| {
        assert PhaseLog(r.tasks[u], r.logs[u]) && Disciplined(r.logs[u]);
      } else {
        NothingSaid(n.logs[u]);
      }
    }
  }

  lemma NothingSaid(log: Log)
    requires log.said == []
    ensures Disciplined(log)
  {
  }

  lemma LogsReceive(r: Relay, t: TaskId, m: Message)
    requires Shape(r) && LogsOk(r) && CanReceive(r, t)
    ensures LogsOk(OnReceive(r, t, m))
  {
    hide LogsOk;
    hide OnReceive;
    match r.tasks[t]
    case Greeting => HelloLog(r, t, m);
    case Serving(_, _, _) => ControlLog(r, t, m);
    case Requesting => RequestLog(r, t, m);
    case Attaching(_) => AttachLog(r, t, m);
    case Confirming(_, session, _) => if m == Ready(session) { ReadyLog(r, t, m); } else { RefusedLog(r, t, m); }
  }

  lemma LogsWrite(r: Relay, t: TaskId)
    requires Shape(r) && LogsOk(r) && CanWrite(r, t)
    ensures LogsOk(OnWrite(r, t))
  {
    hide LogsOk;
    hide OnWrite;
    match r.tasks[t]
    case Welcoming(_, _, _) => WelcomeLog(r, t);
    case Accepting(_, _, _) => SessionReplyLog(r, t);
    case Dismissing(_, _, _) => SessionReplyLog(r, t);
    case Listing(_) => ListReplyLog(r, t);
    case Replying(_, _, _) => RefusalReplyLog(r, t);
    case Granting(_, _, _) => GrantReplyLog(r, t);
  }

  lemma LogsReload(r: Relay, auth: Auth.Snapshot)
    requires Shape(r) && LogsOk(r)
    ensures LogsOk(r.(auth := auth))
  {
  }

  lemma LogsResolve(r: Relay, t: TaskId, c: TaskId)
    requires Shape(r) && LogsOk(r) && CanResolve(r, t, c)
    ensures LogsOk(OnResolve(r, t, c))
  {
    hide LogsOk;
    SilentLogs(r, OnResolve(r, t, c), t);
  }

  lemma LogsStep(r: Relay, a: Action)
    requires Shape(r) && LogsOk(r) && Enabled(r, a)
    ensures LogsOk(Next(r, a))
  {
    hide LogsOk;
    match a
    case Arrive => LogsArrive(r);
    case Reload(_) => LogsReload(r, a.auth);
    case Receive(t, m) => LogsReceive(r, t, m);
    case Write(t) => LogsWrite(r, t);
    case Fail(t) => LogsFail(r, t);
    case Lock(t) => LogsLock(r, t);
    case Enqueue(t) => LogsEnqueue(r, t);
    case Pop(t) => OpenLog(r, t);
    case Lose(t) => SilentLogs(r, OnLose(r, t), t);
    case Stop(t) => SilentLogs(r, OnStop(r, t), t);
    case Resolve(t, c) => LogsResolve(r, t, c);
    case Collect(t) => LogsCollect(r, t);
    case Expire(t) => SilentLogs(r, OnExpire(r, t), t);
    case Finish(t) => LogsFinish(r, t);
  }
}
