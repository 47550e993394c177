/** What a step leaves alone: it moves one task, and speaks on that task's connection only. */
module RelayFrames {
  import opened Messages
  import Auth
  import opened Relay

  /** The task that takes the step. */
  predicate Own(a: Action, t: TaskId) {
    !a.Arrive? && !a.Reload? && a.t == t
  }

  /** Whole frames are read and written by these steps only. */
  predicate Silent(a: Action) {
    !a.Arrive? && !a.Receive? && !a.Write? && !a.Pop?
  }

  ghost predicate Only(r: Relay, n: Relay, t: TaskId)
    requires Shape(r) && t < |r.tasks|
  {
    && |n.tasks| == |r.tasks| && n.tasks == r.tasks[t := n.tasks[t]]
    && |n.logs| == |r.logs| && n.logs == r.logs[t := n.logs[t]]
  }

  lemma OnlyLock(r: Relay, t: TaskId)
    requires Shape(r) && CanLock(r, t)
    ensures Only(r, OnLock(r, t), t) && OnLock(r, t).logs == r.logs
  {
    match r.tasks[t]
    case Registering(_, _) =>
    case Replacing(_, _, _, _) =>
    case Draining(_, _) =>
    case Unregistering(_, _) =>
    case Locating(_, _) =>
    case Claiming(_, _, _) =>
    case Counting =>
    case Finding(_, _) =>
    case Enrolling(_, _, _) =>
    case Cleaning(_, _, _, _, _) =>
  }

  lemma OnlyReceive(r: Relay, t: TaskId, m: Message)
    requires Shape(r) && CanReceive(r, t)
    ensures var n := OnReceive(r, t, m);
            Only(r, n, t) && n.devices == r.devices && n.logs[t].heard == r.logs[t].heard + [m]
            && r.logs[t].said <= n.logs[t].said
  {
    hide Auth.Admits;
  }

  lemma OnlyWrite(r: Relay, t: TaskId)
    requires Shape(r) && CanWrite(r, t)
    ensures var n := OnWrite(r, t);
            Only(r, n, t) && n.devices == r.devices && n.logs[t].heard == r.logs[t].heard
            && n.logs[t].said == r.logs[t].said + [Reply(r.tasks[t])]
  {
    hide Reply;
  }

  lemma OnlyFail(r: Relay, t: TaskId)
    requires Shape(r) && CanFail(r, t)
    ensures var n := OnFail(r, t); Only(r, n, t) && n.logs == r.logs && n.devices == r.devices
  {
  }

  lemma OnlyEnqueue(r: Relay, t: TaskId)
    requires Shape(r) && CanEnqueue(r, t)
    ensures var n := OnEnqueue(r, t); Only(r, n, t) && n.logs == r.logs && n.devices == r.devices
  {
  }

  lemma OnlyCollect(r: Relay, t: TaskId)
    requires Shape(r) && CanCollect(r, t)
    ensures var n := OnCollect(r, t); Only(r, n, t) && n.logs == r.logs && n.devices == r.devices
  {
  }

  lemma OnlyFinish(r: Relay, t: TaskId)
    requires Shape(r) && CanFinish(r, t)
    ensures var n := OnFinish(r, t); Only(r, n, t) && n.logs == r.logs && n.devices == r.devices
  {
  }

  /** Every step belongs to one task and moves no other. */
  lemma OnlyStep(r: Relay, a: Action)
    requires Shape(r) && Enabled(r, a) && !a.Arrive? && !a.Reload?
    ensures a.t < |r.tasks| && Only(r, Next(r, a), a.t)
    ensures var n := Next(r, a);
      && (Silent(a) ==> n.logs == r.logs)
      && (!a.Lock? ==> n.devices == r.devices)
      && n.logs[a.t].heard == r.logs[a.t].heard + (if a.Receive? then [a.m] else [])
      && r.logs[a.t].said <= n.logs[a.t].said
  {
    match a
    case Receive(t, m) => hide OnReceive; OnlyReceive(r, t, m);
    case Write(t) => hide OnWrite; OnlyWrite(r, t);
    case Fail(t) => hide OnFail; OnlyFail(r, t);
    case Lock(t) => hide OnLock; OnlyLock(r, t);
    case Enqueue(t) => hide OnEnqueue; OnlyEnqueue(r, t);
    case Collect(t) => hide OnCollect; OnlyCollect(r, t);
    case Finish(t) => hide OnFinish; OnlyFinish(r, t);
    case _ =>
  }

  // ---------------------------------------------------------------- control handlers

  /** An agent control handler, in whatever phase. */
  predicate IsControl(task: Task) {
    || task.Registering? || task.Replacing? || task.Serving? || task.Draining? || task.Failing?
    || task.Unregistering? || task.Leaving?
  }

  lemma ControlSparesTask(r: Relay, a: Action, k: TaskId)
    requires Shape(r) && Enabled(r, a) && !a.Arrive? && !a.Reload? && IsControl(r.tasks[a.t])
    requires k < |r.tasks| && (r.tasks[k].Accepting? || r.tasks[k].Confirming?)
    ensures k < |Next(r, a).tasks| && Next(r, a).tasks[k] == r.tasks[k]
  {
    hide Next;
    OnlyStep(r, a);
  }

  /** Only `fail_pending` takes a control handler near a response channel. */
  lemma ControlKeepsChannels(r: Relay, a: Action, c: TaskId)
    requires Shape(r) && Enabled(r, a) && !a.Arrive? && !a.Reload? && IsControl(r.tasks[a.t]) && c < |r.chans|
    requires !(a.Lock? && r.tasks[a.t].Draining?) && (a.Resolve? ==> a.c != c)
    ensures var n := Next(r, a); |n.chans| == |r.chans| && n.chans[c] == r.chans[c]
  {
    if a.Lock? {
      ControlLockKeepsChannels(r, a.t);
    }
    hide OnLock;
    hide Auth.Admits;
  }

  lemma ControlLockKeepsChannels(r: Relay, t: TaskId)
    requires Shape(r) && CanLock(r, t) && IsControl(r.tasks[t]) && !r.tasks[t].Draining?
    ensures OnLock(r, t).chans == r.chans
  {
  }

  // ---------------------------------------------------------------- map entries

  lemma LockIsNext(r: Relay, t: TaskId)
    requires Shape(r) && Enabled(r, Lock(t))
    ensures CanLock(r, t) && Next(r, Lock(t)) == OnLock(r, t)
  {
  }

  predicate SameEntry(r: Relay, n: Relay, device: DeviceId) {
    if device in r.devices then device in n.devices && n.devices[device] == r.devices[device]
    else device !in n.devices
  }

  lemma EntriesStay(r: Relay, a: Action, device: DeviceId)
    requires Shape(r) && Enabled(r, a) && !a.Lock?
    ensures SameEntry(r, Next(r, a), device)
  {
    if !a.Arrive? && !a.Reload? {
      hide Next;
      OnlyStep(r, a);
    }
  }
}
