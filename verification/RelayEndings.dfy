/** How a connection handler ends, and what its peer has been told by then. */
module RelayEndings {
  import opened Bytes
  import opened Messages
  import Auth
  import opened Relay
  import opened RelayFrames
  import opened RelayRanks
  import opened RelayProgress
  import opened RelayTheorems

  // ---------------------------------------------------------------- errors, deadlines and surprises

  /** Phases in which a handler only cleans up, if there is anything to clean. */
  predicate Closing(task: Task) {
    task.Draining? || task.Failing? || task.Unregistering? || task.Leaving? || task.Done?
  }

  /** The frames a phase goes on with; a greeting must also show the token of its role and device. */
  predicate GoesOnWith(auth: Auth.Snapshot, task: Task, m: Message) {
    match task
    case Greeting => m.Hello? && m.version == PROTOCOL_VERSION && Auth.Admits(auth, m.role, m.deviceId, m.token)
    case Serving(_, _, _) => m == Ping
    case Attaching(_) => m.SessionAttach?
    case Confirming(_, session, _) => m == Ready(session)
    case Requesting => m == ListRequest || m.OpenRequest?
    case _ => false
  }

  /**
   A failed read or write, a deadline for one, a replaced agent, a lost writer, a frame the phase has no use
   for, the end of a bridge, and the last answer to a peer.
   */
  predicate Fatal(r: Relay, a: Action)
    requires Shape(r) && Enabled(r, a)
  {
    match a
    case Fail(_) => true
    case Stop(_) => true
    case Lose(_) => true
    case Receive(t, m) => !GoesOnWith(r.auth, r.tasks[t], m)
    case Finish(t) => r.tasks[t].Bridging?
    case Write(t) => r.tasks[t].Listing? || r.tasks[t].Replying? || r.tasks[t].Dismissing?
    case _ => false
  }

  lemma FatalReceive(r: Relay, t: TaskId, m: Message)
    requires Shape(r) && CanReceive(r, t) && !GoesOnWith(r.auth, r.tasks[t], m)
    ensures |OnReceive(r, t, m).tasks| == |r.tasks| && Closing(OnReceive(r, t, m).tasks[t])
  {
    hide Auth.Admits;
  }

  lemma FatalFail(r: Relay, t: TaskId)
    requires Shape(r) && CanFail(r, t)
    ensures |OnFail(r, t).tasks| == |r.tasks| && Closing(OnFail(r, t).tasks[t])
  {
  }

  lemma FatalWrite(r: Relay, t: TaskId)
    requires Shape(r) && CanWrite(r, t) && (r.tasks[t].Listing? || r.tasks[t].Replying? || r.tasks[t].Dismissing?)
    ensures |OnWrite(r, t).tasks| == |r.tasks| && Closing(OnWrite(r, t).tasks[t])
  {
  }

  lemma FatalCloses(r: Relay, a: Action)
    requires Shape(r) && Enabled(r, a) && Fatal(r, a)
    ensures |Next(r, a).tasks| == |r.tasks| && Closing(Next(r, a).tasks[a.t])
  {
    match a
    case Receive(t, m) => hide OnReceive; FatalReceive(r, t, m);
    case Fail(t) => hide OnFail; FatalFail(r, t);
    case Write(t) => hide OnWrite; FatalWrite(r, t);
    case Finish(t) =>
    case Stop(t) =>
    case Lose(t) =>
  }

  lemma ClosingSilent(r: Relay, a: Action)
    requires Shape(r) && Enabled(r, a) && !a.Arrive? && !a.Reload? && Closing(r.tasks[a.t])
    ensures Silent(a) && |Next(r, a).tasks| == |r.tasks| && Closing(Next(r, a).tasks[a.t])
    ensures !r.tasks[a.t].Done?
  {
    match a
    case Lock(t) => ClosingLock(r, t); hide OnLock;
    case _ =>
  }

  lemma ClosingLock(r: Relay, t: TaskId)
    requires Shape(r) && CanLock(r, t) && Closing(r.tasks[t])
    ensures |OnLock(r, t).tasks| == |r.tasks| && Closing(OnLock(r, t).tasks[t])
  {
  }

  /** A handler that closes neither reads nor writes any more, and only ever closes further. */
  lemma ClosingStays(r: Relay, a: Action, t: TaskId)
    requires Shape(r) && Enabled(r, a) && t < |r.tasks| && Closing(r.tasks[t])
    ensures var n := Next(r, a);
      && t < |n.tasks| && t < |n.logs| && Closing(n.tasks[t]) && n.logs[t] == r.logs[t]
      && (r.tasks[t].Done? ==> n.tasks[t].Done?)
  {
    if !a.Arrive? && !a.Reload? {
      if a.t == t {
        ClosingSilent(r, a);
      }
      hide Next;
      OnlyStep(r, a);
    }
  }

  lemma {:induction false} StaysClosing(states: seq<Relay>, actions: seq<Action>, i: nat, j: nat, t: TaskId)
    requires Run(states, actions) && i <= j < |states| && t < |states[i].tasks| && t < |states[i].logs|
    requires Closing(states[i].tasks[t])
    ensures t < |states[j].tasks| && t < |states[j].logs| && Closing(states[j].tasks[t])
    ensures states[j].logs[t] == states[i].logs[t] && (states[i].tasks[t].Done? ==> states[j].tasks[t].Done?)
  {
    hide *;
    if i < j {
      StaysClosing(states, actions, i, j - 1, t);
      assert |actions| >= j by { LengthOfRun(states, actions); }
      RunStep(states, actions, j - 1);
      ClosingStays(states[j - 1], actions[j - 1], t);
    }
  }

  lemma LengthOfRun(states: seq<Relay>, actions: seq<Action>)
    requires Run(states, actions)
    ensures |states| == |actions| + 1
  {
  }

  /**
   After an error, a deadline, a replacement or a surprising frame a handler never reads or writes again, and
   it is over, its permit given back, once it has taken `FAR` more steps of its own.
   */
  lemma EndedForGood(states: seq<Relay>, actions: seq<Action>, i: nat, j: nat)
    requires Run(states, actions) && i < j < |states| == |actions| + 1
    requires Shape(states[i]) && Enabled(states[i], actions[i]) && Fatal(states[i], actions[i])
    ensures var t := actions[i].t;
      && t < |states[j].tasks| && t < |states[i + 1].logs| && t < |states[j].logs| && Closing(states[j].tasks[t])
      && states[j].logs[t] == states[i + 1].logs[t]
      && (OwnSteps(actions[i + 1..j], t) >= FAR ==> states[j].tasks[t].Done? && Weight(states[j].tasks[t]) == 0)
  {
    var t := actions[i].t;
    FatalInRun(states, actions, i);
    hide *;
    StaysClosing(states, actions, i + 1, j, t);
    if OwnSteps(actions[i + 1..j], t) >= FAR {
      var k := HandlersComeToTheirPeer(states, actions, i + 1, j, t);
      StaysClosing(states, actions, i + 1, k, t);
      ClosedIsDone(states[k].tasks[t]);
      StaysClosing(states, actions, k, j, t);
    }
  }

  lemma ClosedIsDone(task: Task)
    requires Closing(task) && UpToPeer(task)
    ensures task.Done? && Weight(task) == 0
  {
  }

  lemma FatalInRun(states: seq<Relay>, actions: seq<Action>, i: nat)
    requires Run(states, actions) && i + 1 < |states| == |actions| + 1
    requires Shape(states[i]) && Enabled(states[i], actions[i]) && Fatal(states[i], actions[i])
    ensures var t := actions[i].t;
      t < |states[i + 1].tasks| && t < |states[i + 1].logs| && Closing(states[i + 1].tasks[t])
  {
    RunStep(states, actions, i);
    hide Inv;
    hide Run;
    FatalCloses(states[i], actions[i]);
    hide Fatal;
    hide Next;
    OnlyStep(states[i], actions[i]);
  }

  // ---------------------------------------------------------------- Pings and Pongs

  function Count(frames: seq<Message>, m: Message): nat {
    if frames == [] then 0 else Count(frames[..|frames| - 1], m) + if frames[|frames| - 1] == m then 1 else 0
  }

  lemma CountSnoc(frames: seq<Message>, last: Message, m: Message)
    ensures Count(frames + [last], m) == Count(frames, m) + if last == m then 1 else 0
  {
    assert (frames + [last])[..|frames|] == frames;
  }

  /** The phases of a control handler, the greeting included. */
  predicate OnControl(task: Task) {
    task.Greeting? || (task.Welcoming? && task.role == RoleAgent) || IsControl(task)
  }

  /** As many Pongs written as Pings read. */
  ghost predicate Even(task: Task, log: Log) {
    OnControl(task) ==> Count(log.said, Pong) == Count(log.heard, Ping)
  }

  lemma ReceiveLeaves(r: Relay, t: TaskId, m: Message)
    requires Shape(r) && CanReceive(r, t) && !OnControl(r.tasks[t])
    ensures |OnReceive(r, t, m).tasks| == |r.tasks| && !OnControl(OnReceive(r, t, m).tasks[t])
  {
    hide Auth.Admits;
  }

  lemma PingOnControl(r: Relay, t: TaskId)
    requires Shape(r) && CanReceive(r, t) && (r.tasks[t].Greeting? || r.tasks[t].Serving?)
    ensures OnControl(OnReceive(r, t, Ping).tasks[t]) ==> r.tasks[t].Serving?
  {
  }

  lemma ReceiveControl(r: Relay, t: TaskId, m: Message)
    requires Shape(r) && CanReceive(r, t)
    ensures var n := OnReceive(r, t, m);
      && |n.tasks| == |r.tasks|
      && (OnControl(n.tasks[t]) ==> OnControl(r.tasks[t]) && (m == Ping ==> r.tasks[t].Serving?))
  {
    OnlyReceive(r, t, m);
    if !OnControl(r.tasks[t]) {
      ReceiveLeaves(r, t, m);
    } else {
      PingOnControl(r, t);
    }
    hide OnReceive;
  }

  lemma ReceiveSays(r: Relay, t: TaskId, m: Message)
    requires Shape(r) && CanReceive(r, t)
    ensures var n := OnReceive(r, t, m);
      && n.logs[t].heard == r.logs[t].heard + [m]
      && n.logs[t].said == r.logs[t].said + if r.tasks[t].Serving? && m == Ping then [Pong] else []
  {
    hide Auth.Admits;
  }

  lemma EvenReceive(r: Relay, t: TaskId, m: Message)
    requires Shape(r) && CanReceive(r, t) && Even(r.tasks[t], r.logs[t])
    ensures var n := OnReceive(r, t, m); |n.tasks| == |r.tasks| && Even(n.tasks[t], n.logs[t])
  {
    CountSnoc(r.logs[t].heard, m, Ping);
    CountSnoc(r.logs[t].said, Pong, Pong);
    ReceiveControl(r, t, m);
    ReceiveSays(r, t, m);
    hide OnReceive;
    hide OnControl;
    hide Count;
  }

  lemma WriteControl(r: Relay, t: TaskId)
    requires Shape(r) && CanWrite(r, t)
    ensures var n := OnWrite(r, t);
      && |n.tasks| == |r.tasks| && Reply(r.tasks[t]) != Pong
      && (OnControl(n.tasks[t]) ==> OnControl(r.tasks[t]))
  {
  }

  lemma EvenWrite(r: Relay, t: TaskId)
    requires Shape(r) && CanWrite(r, t) && Even(r.tasks[t], r.logs[t])
    ensures var n := OnWrite(r, t); |n.tasks| == |r.tasks| && Even(n.tasks[t], n.logs[t])
  {
    CountSnoc(r.logs[t].said, Reply(r.tasks[t]), Pong);
    WriteControl(r, t);
    OnlyWrite(r, t);
    hide OnWrite;
    hide Reply;
    hide OnControl;
    hide Count;
  }

  lemma EvenPop(r: Relay, t: TaskId)
    requires Shape(r) && CanPop(r, t) && Even(r.tasks[t], r.logs[t])
    ensures var n := OnPop(r, t); |n.tasks| == |r.tasks| && Even(n.tasks[t], n.logs[t])
  {
    CountSnoc(r.logs[t].said, Open(r.gens[r.tasks[t].gen].queue[0].session), Pong);
    hide Count;
  }

  lemma SilentControl(r: Relay, a: Action)
    requires Shape(r) && Enabled(r, a) && Silent(a) && !a.Reload? && !OnControl(r.tasks[a.t])
    ensures |Next(r, a).tasks| == |r.tasks| && !OnControl(Next(r, a).tasks[a.t])
  {
    match a
    case Lock(t) => LockControl(r, t); hide OnLock;
    case Fail(t) => FailControl(r, t); hide OnFail;
    case _ =>
  }

  lemma LockControl(r: Relay, t: TaskId)
    requires Shape(r) && CanLock(r, t) && !OnControl(r.tasks[t])
    ensures |OnLock(r, t).tasks| == |r.tasks| && !OnControl(OnLock(r, t).tasks[t])
  {
    match r.tasks[t]
    case Locating(_, _) => hide Claim; hide Enrol; hide CleanUp;
    case Claiming(_, _, _) => hide Enrol; hide CleanUp;
    case Counting =>
    case Finding(_, _) =>
    case Enrolling(_, _, _) => hide CleanUp; hide Claim;
    case Cleaning(_, _, _, _, _) => hide Enrol; hide Claim;
  }

  lemma FailControl(r: Relay, t: TaskId)
    requires Shape(r) && CanFail(r, t) && !OnControl(r.tasks[t])
    ensures |OnFail(r, t).tasks| == |r.tasks| && !OnControl(OnFail(r, t).tasks[t])
  {
  }

  lemma EvenStep(r: Relay, a: Action, t: TaskId)
    requires Shape(r) && Enabled(r, a) && t < |Next(r, a).tasks| == |Next(r, a).logs|
    requires t < |r.tasks| ==> Even(r.tasks[t], r.logs[t])
    ensures Even(Next(r, a).tasks[t], Next(r, a).logs[t])
  {
    if !a.Arrive? && !a.Reload? {
      hide Even;
      hide OnControl;
      OnlyStep(r, a);
      if a.t == t {
        match a
        case Receive(_, m) => hide OnReceive; EvenReceive(r, t, m);
        case Write(_) => hide OnWrite; EvenWrite(r, t);
        case Pop(_) => hide OnPop; EvenPop(r, t);
        case _ => hide Next; EvenSilent(r, a);
      } else {
        hide Next;
      }
    } else {
      assert Count([], Ping) == Count([], Pong);
    }
  }

  lemma EvenSilent(r: Relay, a: Action)
    requires Shape(r) && Enabled(r, a) && Silent(a) && !a.Reload? && Even(r.tasks[a.t], r.logs[a.t])
    ensures |Next(r, a).tasks| == |r.tasks| && |Next(r, a).logs| == |r.logs|
    ensures Even(Next(r, a).tasks[a.t], Next(r, a).logs[a.t])
  {
    if !OnControl(r.tasks[a.t]) {
      SilentControl(r, a);
    }
    hide Next;
    hide OnControl;
    hide Count;
    OnlyStep(r, a);
  }

  lemma StepShape(states: seq<Relay>, actions: seq<Action>, i: nat)
    requires Run(states, actions) && i < |states|
    ensures Shape(states[i])
  {
    hide Run;
    InvRun(states, actions, i);
  }

  /** Whatever else happens on a control channel, every Ping read has been answered, and by one Pong. */
  lemma {:induction false} EveryPingIsAnswered(states: seq<Relay>, actions: seq<Action>, i: nat, t: TaskId)
    requires Run(states, actions) && i < |states| == |actions| + 1 && t < |states[i].tasks|
    ensures t < |states[i].logs|
    ensures IsControl(states[i].tasks[t]) ==>
      Count(states[i].logs[t].said, Pong) == Count(states[i].logs[t].heard, Ping)
  {
    EvenInRun(states, actions, i, t);
  }

  lemma {:induction false} EvenInRun(states: seq<Relay>, actions: seq<Action>, i: nat, t: TaskId)
    requires Run(states, actions) && i < |states| == |actions| + 1 && t < |states[i].tasks|
    ensures t < |states[i].logs| && Even(states[i].tasks[t], states[i].logs[t])
  {
    StepShape(states, actions, i);
    if i > 0 {
      RunStep(states, actions, i - 1);
      hide Inv;
      hide Run;
      hide Next;
      hide Even;
      if t < |states[i - 1].tasks| {
        EvenInRun(states, actions, i - 1, t);
      }
      EvenStep(states[i - 1], actions[i - 1], t);
    }
  }

  // ---------------------------------------------------------------- the token files

  /** Peers are let in under the token files as they were last read. */
  lemma {:induction false} TokensAreTheLastRead(states: seq<Relay>, actions: seq<Action>, i: nat, j: nat, auth: Auth.Snapshot)
    requires Run(states, actions) && i < j < |states| == |actions| + 1 && actions[i] == Reload(auth)
    requires forall k :: i < k < j ==> !actions[k].Reload?
    ensures states[j].auth == auth
  {
    hide Run;
    hide Inv;
    RunStep(states, actions, j - 1);
    if j > i + 1 {
      hide Next;
      TokensAreTheLastRead(states, actions, i, j - 1, auth);
      AuthStays(states[j - 1], actions[j - 1]);
    }
  }

  lemma AuthStays(r: Relay, a: Action)
    requires Shape(r) && Enabled(r, a) && !a.Reload?
    ensures Next(r, a).auth == r.auth
  {
    match a
    case Lock(t) => LockKeepsAuth(r, t); hide OnLock;
    case Receive(t, m) => ReceiveKeepsAuth(r, t, m); hide OnReceive;
    case Write(t) => hide Reply;
    case _ =>
  }

  lemma LockKeepsAuth(r: Relay, t: TaskId)
    requires Shape(r) && CanLock(r, t)
    ensures OnLock(r, t).auth == r.auth
  {
  }

  lemma ReceiveKeepsAuth(r: Relay, t: TaskId, m: Message)
    requires Shape(r) && CanReceive(r, t)
    ensures OnReceive(r, t, m).auth == r.auth
  {
    hide Auth.Admits;
  }
}
