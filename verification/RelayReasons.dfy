/** What becomes of an answer: the controller it was given to passes it on, with the reason it came with. */
module RelayReasons {
  import opened Bytes
  import opened Messages
  import Auth
  import opened Relay
  import opened RelayFrames
  import opened RelaySenders
  import opened RelaySessions
  import opened RelayTheorems

  /** A controller on its way from the answer in its inbox to the frame that carries it; `said` is what it had said. */
  predicate Refused(task: Task, ch: Chan, log: Log, session: SessionId, reason: string, said: seq<Message>) {
    || (task.Waiting? && task.session == session && ch.inbox == Refusal(reason) && log.said == said)
    || (task.Replying? && task.session == session && task.reason == reason && log.said == said)
    || (task.Done? && (log.said == said || log.said == said + [Failed(session, reason)]))
  }

  predicate Granted(task: Task, ch: Chan, log: Log, session: SessionId, stream: TaskId, said: seq<Message>) {
    || (task.Waiting? && task.session == session && ch.inbox == Stream(stream) && log.said == said)
    || (task.Granting? && task.session == session && task.stream == stream && log.said == said)
    || (task.Bridging? && task.session == session && task.stream == stream && log.said == said + [Ready(session)])
    || (task.Done? && (log.said == said || log.said == said + [Ready(session)]))
  }

  /** One step of the controller itself. */
  lemma PassesOn(r: Relay, a: Action, c: TaskId, session: SessionId, said: seq<Message>)
    requires Shape(r) && Enabled(r, a) && Own(a, c) && !a.Expire? && c < |r.tasks|
    ensures var n := Next(r, a);
      && c < |n.tasks| && Shape(n)
      && (forall reason :: Refused(r.tasks[c], r.chans[c], r.logs[c], session, reason, said) ==>
            Refused(n.tasks[c], n.chans[c], n.logs[c], session, reason, said))
      && (forall stream :: Granted(r.tasks[c], r.chans[c], r.logs[c], session, stream, said) ==>
            Granted(n.tasks[c], n.chans[c], n.logs[c], session, stream, said))
  {
    OnlyStep(r, a);
    if r.tasks[c].Waiting? || r.tasks[c].Replying? || r.tasks[c].Granting? || r.tasks[c].Bridging? || r.tasks[c].Done? {
      hide OnReceive;
      hide OnLock;
      hide OnEnqueue;
    } else {
      hide Next;
    }
  }

  /** A step of any other task. */
  lemma LeftAlone(states: seq<Relay>, actions: seq<Action>, k: nat, c: TaskId)
    requires Run(states, actions) && k < |actions| && |states| == |actions| + 1 && !Own(actions[k], c)
    requires Shape(states[k]) && c < |states[k].tasks|
    ensures Shape(states[k + 1]) && c < |states[k + 1].tasks| && states[k + 1].tasks[c] == states[k].tasks[c]
    ensures states[k + 1].logs[c] == states[k].logs[c]
    ensures states[k].tasks[c].Waiting? && states[k].chans[c].inbox != Empty ==>
      states[k + 1].chans[c].inbox == states[k].chans[c].inbox
  {
    assert Reachable(states[k]) && Reachable(states[k + 1]);
    hide Reachable;
    RunStep(states, actions, k);
    hide Inv;
    hide Run;
    var r, a := states[k], actions[k];
    if !a.Arrive? && !a.Reload? {
      OnlyStep(r, a);
    }
    if r.tasks[c].Waiting? && r.chans[c].inbox != Empty {
      hide Next;
      UsedMeansAnswered(r, c);
      SpentForGood(r, a, c);
      UsedMeansAnswered(states[k + 1], c);
    }
  }

  lemma RefusedNext(states: seq<Relay>, actions: seq<Action>, k: nat, c: TaskId, session: SessionId, reason: string,
                    said: seq<Message>)
    requires Run(states, actions) && k < |actions| && |states| == |actions| + 1 && actions[k] != Expire(c)
    requires Shape(states[k]) && c < |states[k].tasks|
    requires Refused(states[k].tasks[c], states[k].chans[c], states[k].logs[c], session, reason, said)
    ensures Shape(states[k + 1]) && c < |states[k + 1].tasks|
    ensures Refused(states[k + 1].tasks[c], states[k + 1].chans[c], states[k + 1].logs[c], session, reason, said)
  {
    if Own(actions[k], c) {
      RunStep(states, actions, k);
      hide Run;
      hide Inv;
      PassesOn(states[k], actions[k], c, session, said);
      hide Next;
      hide Refused;
    } else {
      LeftAlone(states, actions, k, c);
      hide Run;
    }
  }

  lemma {:induction false} RefusedLater(states: seq<Relay>, actions: seq<Action>, i: nat, j: nat, c: TaskId,
                                        session: SessionId, reason: string, said: seq<Message>)
    requires Run(states, actions) && i <= j < |states| == |actions| + 1
    requires Shape(states[i]) && c < |states[i].tasks|
    requires Refused(states[i].tasks[c], states[i].chans[c], states[i].logs[c], session, reason, said)
    requires forall k :: i <= k < j ==> actions[k] != Expire(c)
    ensures Shape(states[j]) && c < |states[j].tasks|
    ensures Refused(states[j].tasks[c], states[j].chans[c], states[j].logs[c], session, reason, said)
  {
    hide *;
    if i < j {
      RefusedLater(states, actions, i, j - 1, c, session, reason, said);
      RefusedNext(states, actions, j - 1, c, session, reason, said);
    }
  }

  lemma GrantedNext(states: seq<Relay>, actions: seq<Action>, k: nat, c: TaskId, session: SessionId, stream: TaskId,
                    said: seq<Message>)
    requires Run(states, actions) && k < |actions| && |states| == |actions| + 1 && actions[k] != Expire(c)
    requires Shape(states[k]) && c < |states[k].tasks|
    requires Granted(states[k].tasks[c], states[k].chans[c], states[k].logs[c], session, stream, said)
    ensures Shape(states[k + 1]) && c < |states[k + 1].tasks|
    ensures Granted(states[k + 1].tasks[c], states[k + 1].chans[c], states[k + 1].logs[c], session, stream, said)
  {
    if Own(actions[k], c) {
      RunStep(states, actions, k);
      hide Run;
      hide Inv;
      PassesOn(states[k], actions[k], c, session, said);
      hide Next;
      hide Granted;
    } else {
      LeftAlone(states, actions, k, c);
      hide Run;
    }
  }

  lemma {:induction false} GrantedLater(states: seq<Relay>, actions: seq<Action>, i: nat, j: nat, c: TaskId,
                                        session: SessionId, stream: TaskId, said: seq<Message>)
    requires Run(states, actions) && i <= j < |states| == |actions| + 1
    requires Shape(states[i]) && c < |states[i].tasks|
    requires Granted(states[i].tasks[c], states[i].chans[c], states[i].logs[c], session, stream, said)
    requires forall k :: i <= k < j ==> actions[k] != Expire(c)
    ensures Shape(states[j]) && c < |states[j].tasks|
    ensures Granted(states[j].tasks[c], states[j].chans[c], states[j].logs[c], session, stream, said)
  {
    hide *;
    if i < j {
      GrantedLater(states, actions, i, j - 1, c, session, stream, said);
      GrantedNext(states, actions, j - 1, c, session, stream, said);
    }
  }

  /** What an agent session answers reaches the inbox of the controller that waits for it. */
  lemma AnswerReachesInbox(r: Relay, t: TaskId, m: Message)
    requires Inv(r) && CanReceive(r, t) && r.tasks[t].Confirming?
    ensures var c, n := r.tasks[t].sender, Next(r, Receive(t, m));
      && c < |r.tasks| && c != t && Shape(n) && |n.tasks| == |r.tasks|
      && (r.tasks[c].Waiting? ==>
            && r.tasks[c].session == r.tasks[t].session && n.tasks[c] == r.tasks[c] && n.logs[c] == r.logs[c]
            && n.chans[c].inbox ==
               if m == Ready(r.tasks[t].session) then Stream(t)
               else if m.Failed? && m.sessionId == r.tasks[t].session then Refusal(m.reason)
               else Refusal("unexpected agent session response"))
  {
    var c := r.tasks[t].sender;
    assert TaskRefs(r, t) && ChanRefs(r, c) && TaskRefs(r, c);
    hide Inv;
  }

  /**
   Unless the controller's own deadline passes first, what an agent session answers is what the controller is
   told, and all it is told: Ready, followed by this very stream, or Failed with the agent's reason.
   */
  lemma AnswerGetsThrough(states: seq<Relay>, actions: seq<Action>, i: nat, j: nat, t: TaskId, m: Message)
    requires Run(states, actions) && i < j < |states| == |actions| + 1 && actions[i] == Receive(t, m)
    requires Shape(states[i]) && t < |states[i].tasks| && states[i].tasks[t].Confirming?
    requires states[i].tasks[t].sender < |states[i].tasks| && states[i].tasks[states[i].tasks[t].sender].Waiting?
    requires forall k :: i < k < j ==> actions[k] != Expire(states[i].tasks[t].sender)
    ensures var session, c := states[i].tasks[t].session, states[i].tasks[t].sender;
      && Shape(states[j]) && c < |states[j].tasks|
      && var task, ch, log, said := states[j].tasks[c], states[j].chans[c], states[j].logs[c], states[i].logs[c].said;
         if m == Ready(session) then Granted(task, ch, log, session, t, said)
         else Refused(task, ch, log, session,
                      if m.Failed? && m.sessionId == session then m.reason else "unexpected agent session response", said)
  {
    var session, c := states[i].tasks[t].session, states[i].tasks[t].sender;
    RunStep(states, actions, i);
    AnswerReachesInbox(states[i], t, m);
    hide Inv;
    hide Run;
    hide Next;
    if m == Ready(session) {
      GrantedLater(states, actions, i + 1, j, c, session, t, states[i].logs[c].said);
    } else {
      var reason := if m.Failed? && m.sessionId == session then m.reason else "unexpected agent session response";
      RefusedLater(states, actions, i + 1, j, c, session, reason, states[i].logs[c].said);
    }
  }

  // ---------------------------------------------------------------- why a request is refused

  /** A controller that is about to be told Failed, or to clean up first, by what its step found. */
  ghost predicate Refuses(r: Relay, a: Action, next: Task)
    requires Shape(r) && Enabled(r, a) && !a.Arrive? && !a.Reload?
  {
    match r.tasks[a.t]
    case Finding(target, session) =>
      a.Lock? && target !in r.devices && next == Replying(target, session, "device is offline: " + target)
    case Enrolling(target, session, gen) =>
      && a.Lock? && gen < |r.gens| && (|r.gens[gen].pending| >= 32 || session in r.gens[gen].pending)
      && next == Replying(target, session, "device has too many pending SSH sessions")
    case Queueing(target, session, gen) =>
      if a.Expire? then next == Cleaning(target, session, gen, "agent did not respond in time", false)
      else gen < |r.gens| && !r.gens[gen].accepting
           && next == Cleaning(target, session, gen, "device agent disconnected before session started", true)
    case Waiting(target, session, gen) =>
      if a.Expire? then next == Cleaning(target, session, gen, "agent did not respond in time", false)
      else if r.chans[a.t].inbox.Refusal? then next == Replying(target, session, r.chans[a.t].inbox.reason)
      else r.chans[a.t].inbox.Closed?
           && next == Cleaning(target, session, gen, "agent closed before accepting session", true)
    case Cleaning(target, session, gen, reason, answer) =>
      && gen < |r.gens|
      && (if session in r.gens[gen].pending && answer
          then next == Answering(target, session, r.gens[gen].pending[session], reason)
          else next == Replying(target, session, reason))
    case Answering(target, session, _, reason) => next == Replying(target, session, reason)
    case _ => false
  }

  lemma LockRefuses(r: Relay, t: TaskId)
    requires Shape(r) && CanLock(r, t)
    ensures var n := OnLock(r, t);
      && |n.tasks| == |r.tasks|
      && (n.tasks[t].Replying? || n.tasks[t].Cleaning? || n.tasks[t].Answering? ==> Refuses(r, Lock(t), n.tasks[t]))
  {
    OnlyLock(r, t);
    match r.tasks[t]
    case Enrolling(_, _, _) => hide CleanUp; hide Claim;
    case Cleaning(_, _, _, _, _) => hide Enrol; hide Claim;
    case _ => hide Enrol; hide CleanUp;
  }

  /** No open request is refused without a cause, and the reason it is given names that cause. */
  lemma RefusalHasItsCause(r: Relay, a: Action)
    requires Shape(r) && Enabled(r, a) && !a.Arrive? && !a.Reload?
    requires a.t < |r.tasks| && a.t < |Next(r, a).tasks|
    requires var next := Next(r, a).tasks[a.t]; next.Replying? || next.Cleaning? || next.Answering?
    ensures Refuses(r, a, Next(r, a).tasks[a.t])
  {
    match a
    case Lock(t) => LockRefuses(r, t); hide OnLock; hide Refuses;
    case Receive(t, m) => NoRefusalFromReceive(r, t, m); hide OnReceive;
    case Write(t) => NoRefusalFromPeer(r, t); hide OnWrite;
    case Fail(t) => NoRefusalFromPeer(r, t); hide OnFail;
    case Collect(t) => CollectRefuses(r, t); hide OnCollect; hide Refuses;
    case Enqueue(t) => EnqueueRefuses(r, t); hide OnEnqueue; hide Refuses;
    case Expire(t) =>
    case Finish(t) => FinishRefuses(r, t); hide OnFinish; hide Refuses;
    case _ => hide OnReceive; hide OnLock; hide OnWrite; hide OnFail; hide OnCollect; hide OnFinish; hide OnEnqueue;
  }

  lemma EnqueueRefuses(r: Relay, t: TaskId)
    requires Shape(r) && CanEnqueue(r, t)
    ensures var n := OnEnqueue(r, t);
      |n.tasks| == |r.tasks| && (!n.tasks[t].Waiting? ==> Refuses(r, Enqueue(t), n.tasks[t]))
  {
    var task := r.tasks[t];
    if r.gens[task.gen].accepting {
      assert OnEnqueue(r, t).tasks[t] == Waiting(task.target, task.session, task.gen);
      hide Refuses;
    } else {
      assert OnEnqueue(r, t).tasks[t]
             == Cleaning(task.target, task.session, task.gen, "device agent disconnected before session started", true);
    }
    hide OnEnqueue;
  }

  lemma CollectRefuses(r: Relay, t: TaskId)
    requires Shape(r) && CanCollect(r, t)
    ensures var n := OnCollect(r, t);
      |n.tasks| == |r.tasks| && (!n.tasks[t].Granting? ==> Refuses(r, Collect(t), n.tasks[t]))
  {
  }

  lemma FinishRefuses(r: Relay, t: TaskId)
    requires Shape(r) && CanFinish(r, t)
    ensures var n := OnFinish(r, t);
      && |n.tasks| == |r.tasks| && !n.tasks[t].Cleaning? && !n.tasks[t].Answering?
      && (n.tasks[t].Replying? ==> Refuses(r, Finish(t), n.tasks[t]))
  {
  }

  lemma NoRefusalFromPeer(r: Relay, t: TaskId)
    requires Shape(r)
    ensures CanWrite(r, t) ==> var n := OnWrite(r, t);
      |n.tasks| == |r.tasks| && !n.tasks[t].Replying? && !n.tasks[t].Cleaning? && !n.tasks[t].Answering?
    ensures CanFail(r, t) ==> var n := OnFail(r, t);
      |n.tasks| == |r.tasks| && !n.tasks[t].Replying? && !n.tasks[t].Cleaning? && !n.tasks[t].Answering?
  {
    hide Reply;
  }

  lemma NoRefusalFromReceive(r: Relay, t: TaskId, m: Message)
    requires Shape(r) && CanReceive(r, t)
    ensures var n := OnReceive(r, t, m);
      |n.tasks| == |r.tasks| && !n.tasks[t].Replying? && !n.tasks[t].Cleaning? && !n.tasks[t].Answering?
  {
    hide Auth.Admits;
  }

  /** An agent session is dismissed exactly when its controller's sender is not there to be taken. */
  lemma ClaimDecides(r: Relay, t: TaskId)
    requires Inv(r) && CanLock(r, t) && r.tasks[t].Claiming?
    ensures r.tasks[t].gen < |r.gens|
    ensures var task, pending, n := r.tasks[t], r.gens[r.tasks[t].gen].pending, OnLock(r, t);
      && |n.tasks| == |r.tasks|
      && n.tasks[t] == if task.session in pending then Accepting(task.device, task.session, pending[task.session])
                       else Dismissing(task.device, task.session, "SSH session is no longer waiting")
  {
    hide Linear;
    hide Refs;
    hide Inv;
  }
}
