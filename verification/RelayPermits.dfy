/** Conservation of the connection permits while they travel with tasks and handed-off streams. */
module RelayPermits {
  import opened Messages
  import Auth
  import opened Relay
  import opened RelaySenders
  import opened RelaySessions

  function TaskPermits(tasks: seq<Task>): nat {
    if tasks == [] then 0 else TaskPermits(tasks[..|tasks| - 1]) + Weight(tasks[|tasks| - 1])
  }

  function InboxPermits(chans: seq<Chan>): nat {
    if chans == [] then 0 else InboxPermits(chans[..|chans| - 1]) + InboxWeight(chans[|chans| - 1])
  }

  /** Free permits, permits held by tasks and permits inside unread handoffs add up. */
  predicate Conserved(r: Relay) {
    r.free + TaskPermits(r.tasks) + InboxPermits(r.chans) == MAX_CONNECTIONS
  }

  lemma {:induction false} TaskUpdate(tasks: seq<Task>, t: nat, task: Task)
    requires t < |tasks|
    ensures TaskPermits(tasks[t := task]) + Weight(tasks[t]) == TaskPermits(tasks) + Weight(task)
  {
    var last := |tasks| - 1;
    var next := tasks[t := task];
    if t == last {
      assert next[..last] == tasks[..last];
    } else {
      TaskUpdate(tasks[..last], t, task);
      assert next[..last] == tasks[..last][t := task];
    }
  }

  lemma {:induction false} InboxUpdate(chans: seq<Chan>, c: nat, ch: Chan)
    requires c < |chans|
    ensures InboxPermits(chans[c := ch]) + InboxWeight(chans[c]) == InboxPermits(chans) + InboxWeight(ch)
  {
    var last := |chans| - 1;
    var next := chans[c := ch];
    if c == last {
      assert next[..last] == chans[..last];
    } else {
      InboxUpdate(chans[..last], c, ch);
      assert next[..last] == chans[..last][c := ch];
    }
  }

  /** Moving senders about moves no permit. */
  lemma {:induction false} InboxSame(a: seq<Chan>, b: seq<Chan>)
    requires |a| == |b| && forall i :: 0 <= i < |a| ==> InboxWeight(a[i]) == InboxWeight(b[i])
    ensures InboxPermits(a) == InboxPermits(b)
  {
    if a != [] {
      var last := |a| - 1;
      InboxSame(a[..last], b[..last]);
    }
  }

  /** A step of task `t` that touches the channel of `c` and keeps the balance locally keeps it globally. */
  lemma Balanced(r: Relay, n: Relay, t: TaskId, c: TaskId)
    requires Shape(r) && t < |r.tasks| == |n.tasks| && c < |r.chans| == |n.chans|
    requires n.tasks == r.tasks[t := n.tasks[t]] && n.chans == r.chans[c := n.chans[c]]
    requires n.free + Weight(n.tasks[t]) + InboxWeight(n.chans[c]) == r.free + Weight(r.tasks[t]) + InboxWeight(r.chans[c])
    requires Conserved(r)
    ensures Conserved(n)
  {
    TaskUpdate(r.tasks, t, n.tasks[t]);
    InboxUpdate(r.chans, c, n.chans[c]);
  }

  lemma ConservedArrive(r: Relay)
    requires Shape(r) && Conserved(r) && CanArrive(r)
    ensures Conserved(OnArrive(r))
  {
    var n := OnArrive(r);
    assert n.tasks[..|r.tasks|] == r.tasks && n.chans[..|r.chans|] == r.chans;
  }

  lemma ConservedDrain(r: Relay, t: TaskId)
    requires Shape(r) && Conserved(r) && CanLock(r, t) && r.tasks[t].Draining?
    ensures Conserved(Drain(r, t))
  {
    var n := Drain(r, t);
    InboxSame(r.chans, n.chans);
    TaskUpdate(r.tasks, t, n.tasks[t]);
  }

  /**
   Every step keeps the balance. A value sent to a controller that has given up is dropped with its permit
   returned; that no sender is used twice (`Linear`, `Refs`) is what makes this true of a second send.
   */
  lemma ConservedStep(r: Relay, a: Action)
    requires Shape(r) && Linear(r) && Refs(r) && Conserved(r) && Enabled(r, a)
    ensures Conserved(Next(r, a))
  {
    hide Linear;
    hide Refs;
    hide TaskPermits;
    hide InboxPermits;
    match a
    case Arrive => ConservedArrive(r);
    case Reload(_) =>
    case Receive(t, m) => ConservedReceive(r, t, m);
    case Write(t) => ConservedWrite(r, t);
    case Fail(t) => ConservedFail(r, t);
    case Lock(t) => ConservedLock(r, t);
    case Enqueue(t) => if r.gens[r.tasks[t].gen].accepting { ConservedEnqueued(r, t); } else { ConservedHungUp(r, t); }
    case Pop(t) => Balanced(r, OnPop(r, t), t, t);
    case Lose(t) => Balanced(r, OnLose(r, t), t, t);
    case Stop(t) => Balanced(r, OnStop(r, t), t, t);
    case Resolve(t, c) => ConservedResolve(r, t, c);
    case Collect(t) => ConservedCollect(r, t);
    case Expire(t) => Balanced(r, OnExpire(r, t), t, t);
    case Finish(t) => ConservedFinish(r, t);
  }

  lemma ConservedWrite(r: Relay, t: TaskId)
    requires Shape(r) && Conserved(r) && CanWrite(r, t)
    ensures Conserved(OnWrite(r, t))
  {
    hide Conserved;
    Balanced(r, OnWrite(r, t), t, t);
  }

  lemma ConservedEnqueued(r: Relay, t: TaskId)
    requires Shape(r) && Conserved(r) && CanEnqueue(r, t)
    ensures Conserved(Enqueued(r, t))
  {
    hide Conserved;
    Balanced(r, Enqueued(r, t), t, t);
  }

  lemma ConservedHungUp(r: Relay, t: TaskId)
    requires Shape(r) && Conserved(r) && CanEnqueue(r, t)
    ensures Conserved(HungUp(r, t))
  {
    hide Conserved;
    Balanced(r, HungUp(r, t), t, t);
  }

  lemma ConservedCollect(r: Relay, t: TaskId)
    requires Shape(r) && Conserved(r) && CanCollect(r, t)
    ensures Conserved(OnCollect(r, t))
  {
    hide Conserved;
    Balanced(r, OnCollect(r, t), t, t);
  }

  /** An unresolved channel carries no permit. */
  lemma NoPermitYet(r: Relay, c: TaskId)
    requires Shape(r) && Refs(r) && c < |r.chans|
    requires r.chans[c].place == InMap || r.chans[c].place.Held? || r.chans[c].place.InBatch?
    ensures InboxWeight(r.chans[c]) == 0
  {
    assert ChanRefs(r, c);
  }

  /** Nor does that of a sender in a task's hands. */
  lemma HeldIsEmpty(r: Relay, t: TaskId)
    requires Shape(r) && Linear(r) && Refs(r) && t < |r.tasks| && Holding(r.tasks[t]).Some?
    ensures Holding(r.tasks[t]).value < |r.chans| && InboxWeight(r.chans[Holding(r.tasks[t]).value]) == 0
  {
    NoPermitYet(r, Holding(r.tasks[t]).value);
  }

  lemma ConservedReceive(r: Relay, t: TaskId, m: Message)
    requires Shape(r) && Linear(r) && Refs(r) && Conserved(r) && CanReceive(r, t)
    ensures Conserved(OnReceive(r, t, m))
  {
    hide Linear;
    hide Refs;
    hide Conserved;
    if r.tasks[t].Confirming? {
      HeldIsEmpty(r, t);
      ConservedVerdict(r, t, m);
    } else {
      hide Auth.Admits;
      Balanced(r, OnReceive(r, t, m), t, t);
    }
  }

  lemma ConservedVerdict(r: Relay, t: TaskId, m: Message)
    requires Shape(r) && Conserved(r) && CanReceive(r, t) && r.tasks[t].Confirming?
    requires r.tasks[t].sender < |r.chans| && InboxWeight(r.chans[r.tasks[t].sender]) == 0
    ensures Conserved(OnReceive(r, t, m))
  {
    hide Conserved;
    Balanced(r, OnReceive(r, t, m), t, r.tasks[t].sender);
  }

  lemma ConservedFail(r: Relay, t: TaskId)
    requires Shape(r) && Linear(r) && Refs(r) && Conserved(r) && CanFail(r, t)
    ensures Conserved(OnFail(r, t))
  {
    hide Linear;
    hide Refs;
    hide Conserved;
    if r.tasks[t].Confirming? || r.tasks[t].Accepting? {
      HeldIsEmpty(r, t);
      Balanced(r, OnFail(r, t), t, r.tasks[t].sender);
    } else {
      Balanced(r, OnFail(r, t), t, t);
    }
  }

  lemma ConservedResolve(r: Relay, t: TaskId, c: TaskId)
    requires Shape(r) && Linear(r) && Refs(r) && Conserved(r) && CanResolve(r, t, c)
    ensures Conserved(OnResolve(r, t, c))
  {
    assert c in Batch(r.tasks[t]);
    NoPermitYet(r, c);
    hide Linear;
    hide Refs;
    hide Conserved;
    Balanced(r, OnResolve(r, t, c), t, c);
  }

  lemma ConservedFinish(r: Relay, t: TaskId)
    requires Shape(r) && Linear(r) && Refs(r) && Conserved(r) && CanFinish(r, t)
    ensures Conserved(OnFinish(r, t))
  {
    hide Linear;
    hide Refs;
    hide Conserved;
    if r.tasks[t].Answering? {
      HeldIsEmpty(r, t);
      Balanced(r, OnFinish(r, t), t, r.tasks[t].sender);
    } else {
      Balanced(r, OnFinish(r, t), t, t);
    }
  }

  lemma ConservedLock(r: Relay, t: TaskId)
    requires Shape(r) && Linear(r) && Refs(r) && Conserved(r) && CanLock(r, t)
    ensures Conserved(OnLock(r, t))
  {
    hide Linear;
    hide Refs;
    hide Conserved;
    match r.tasks[t]
    case Registering(_, _) => Balanced(r, Register(r, t), t, t);
    case Replacing(_, _, _, _) => Balanced(r, Replace(r, t), t, t);
    case Draining(_, _) => ConservedDrain(r, t);
    case Unregistering(_, _) => Balanced(r, Unregister(r, t), t, t);
    case Locating(_, _) => Balanced(r, Locate(r, t), t, t);
    case Claiming(_, _, _) => ConservedClaim(r, t);
    case Counting => Balanced(r, Count(r, t), t, t);
    case Finding(_, _) => Balanced(r, Find(r, t), t, t);
    case Enrolling(_, _, _) => ConservedEnrol(r, t);
    case Cleaning(_, _, _, _, _) => ConservedCleanUp(r, t);
  }

  lemma ConservedEnrol(r: Relay, t: TaskId)
    requires Shape(r) && Refs(r) && Conserved(r) && CanLock(r, t) && r.tasks[t].Enrolling?
    ensures Conserved(Enrol(r, t))
  {
    assert ChanRefs(r, t);
    hide Refs;
    hide Conserved;
    Balanced(r, Enrol(r, t), t, t);
  }

  lemma ConservedClaim(r: Relay, t: TaskId)
    requires Shape(r) && Conserved(r) && CanLock(r, t) && r.tasks[t].Claiming?
    ensures Conserved(Claim(r, t))
  {
    hide Conserved;
    var pending, session := r.gens[r.tasks[t].gen].pending, r.tasks[t].session;
    Balanced(r, Claim(r, t), t, if session in pending then pending[session] else t);
  }

  lemma ConservedCleanUp(r: Relay, t: TaskId)
    requires Shape(r) && Linear(r) && Refs(r) && Conserved(r) && CanLock(r, t) && r.tasks[t].Cleaning?
    ensures Conserved(CleanUp(r, t))
  {
    hide Linear;
    hide Refs;
    hide Conserved;
    var pending, session := r.gens[r.tasks[t].gen].pending, r.tasks[t].session;
    if session !in pending {
      Balanced(r, CleanUp(r, t), t, t);
    } else {
      EntryUnder(r, r.tasks[t].gen, session);
      NoPermitYet(r, pending[session]);
      Balanced(r, CleanUp(r, t), t, pending[session]);
    }
  }

  function Bridges(tasks: seq<Task>): nat {
    if tasks == [] then 0 else
      Bridges(tasks[..|tasks| - 1]) + (if tasks[|tasks| - 1].Bridging? then 1 else 0)
  }

  lemma {:induction false} BridgesHoldTwo(tasks: seq<Task>)
    ensures 2 * Bridges(tasks) <= TaskPermits(tasks)
  {
    if tasks != [] {
      BridgesHoldTwo(tasks[..|tasks| - 1]);
    }
  }
}
