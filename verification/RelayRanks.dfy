/** How far a connection handler is from depending on its peer, and how single steps change that. */
module RelayRanks {
  import opened Messages
  import Auth
  import opened Relay
  import opened RelayFrames

  const FAR: nat := MAX_PENDING_SESSIONS_PER_DEVICE + 4

  /** How many steps of its own a handler has left, at most, before it depends on a peer. */
  function Rank(task: Task): nat {
    match task
    case Registering(_, _) => 2
    case Replacing(_, _, _, _) => 1
    case Draining(_, _) => FAR
    case Failing(_, _, batch) => |batch| + 3
    case Unregistering(_, _) => 2
    case Leaving(_, _) => 1
    case Locating(_, _) => 2
    case Claiming(_, _, _) => 1
    case Counting => 1
    case Finding(_, _) => 6
    case Enrolling(_, _, _) => 5
    case Queueing(_, _, _) => 4
    case Waiting(_, _, _) => 3
    case Cleaning(_, _, _, _, _) => 2
    case Answering(_, _, _, _) => 1
    case _ => 0
  }

  /** What a handler without such a step is about: its peer has to read, write or close, or it is over. */
  predicate UpToPeer(task: Task) {
    Reads(task) || Writes(task) || task.Bridging? || task.HandedOff? || task.Done?
  }

  lemma RankZeroIsUpToPeer(task: Task)
    ensures Rank(task) == 0 <==> UpToPeer(task)
  {
  }

  lemma {:induction false} FewValues<K, V>(m: map<K, V>)
    ensures |m.Values| <= |m|
  {
    if m != map[] {
      var k :| k in m;
      var rest := m - {k};
      FewValues(rest);
      assert m.Values == rest.Values + {m[k]} by {
        forall v | v in m.Values
          ensures v in rest.Values + {m[k]}
        {
          var j :| j in m && m[j] == v;
          assert j == k || (j in rest && rest[j] == v);
        }
      }
    }
  }

  lemma RankAfterDrain(r: Relay, t: TaskId)
    requires Shape(r) && PendingWithin(r) && CanLock(r, t) && r.tasks[t].Draining?
    ensures Drain(r, t).tasks[t].Failing? && |Drain(r, t).tasks[t].batch| <= MAX_PENDING_SESSIONS_PER_DEVICE
  {
    FewValues(r.gens[r.tasks[t].gen].pending);
  }

  lemma RankAfterLock(r: Relay, t: TaskId)
    requires Shape(r) && CanLock(r, t) && !r.tasks[t].Draining?
    ensures |OnLock(r, t).tasks| == |r.tasks| && Rank(OnLock(r, t).tasks[t]) < Rank(r.tasks[t])
  {
    OnlyLock(r, t);
  }

  lemma RankAfterFinish(r: Relay, t: TaskId)
    requires Shape(r) && CanFinish(r, t) && !UpToPeer(r.tasks[t])
    ensures |OnFinish(r, t).tasks| == |r.tasks| && Rank(OnFinish(r, t).tasks[t]) < Rank(r.tasks[t])
  {
  }

  lemma RankAfterCollect(r: Relay, t: TaskId)
    requires Shape(r) && CanCollect(r, t)
    ensures |OnCollect(r, t).tasks| == |r.tasks| && Rank(OnCollect(r, t).tasks[t]) < Rank(r.tasks[t])
  {
  }

  lemma RankAfterEnqueue(r: Relay, t: TaskId)
    requires Shape(r) && CanEnqueue(r, t)
    ensures |OnEnqueue(r, t).tasks| == |r.tasks| && Rank(OnEnqueue(r, t).tasks[t]) < Rank(r.tasks[t])
  {
  }

  lemma RankAfterResolve(r: Relay, t: TaskId, c: TaskId)
    requires Shape(r) && CanResolve(r, t, c)
    ensures |OnResolve(r, t, c).tasks| == |r.tasks| && Rank(OnResolve(r, t, c).tasks[t]) < Rank(r.tasks[t])
  {
  }

  lemma Descend(r: Relay, a: Action)
    requires Shape(r) && PendingWithin(r) && Enabled(r, a) && !a.Arrive? && !a.Reload? && !UpToPeer(r.tasks[a.t])
    ensures |Next(r, a).tasks| == |r.tasks| && Rank(Next(r, a).tasks[a.t]) < Rank(r.tasks[a.t])
  {
    hide PendingWithin;
    match a
    case Lock(t) =>
      if r.tasks[t].Draining? {
        RankAfterDrain(r, t);
        hide Drain;
      } else {
        hide OnLock;
        RankAfterLock(r, t);
      }
    case Enqueue(t) => hide OnEnqueue; RankAfterEnqueue(r, t);
    case Resolve(t, c) => hide OnResolve; RankAfterResolve(r, t, c);
    case Finish(t) => hide OnFinish; RankAfterFinish(r, t);
    case Collect(t) => hide OnCollect; RankAfterCollect(r, t);
    case Expire(t) =>
    case _ => hide Next;
  }

  lemma RankAfterReceive(r: Relay, t: TaskId, m: Message)
    requires Shape(r) && CanReceive(r, t)
    ensures |OnReceive(r, t, m).tasks| == |r.tasks| && Rank(OnReceive(r, t, m).tasks[t]) <= FAR
  {
    hide Auth.Admits;
  }

  lemma RankAfterFail(r: Relay, t: TaskId)
    requires Shape(r) && CanFail(r, t)
    ensures |OnFail(r, t).tasks| == |r.tasks| && Rank(OnFail(r, t).tasks[t]) <= FAR
  {
  }

  lemma RankAfterWrite(r: Relay, t: TaskId)
    requires Shape(r) && CanWrite(r, t)
    ensures |OnWrite(r, t).tasks| == |r.tasks| && Rank(OnWrite(r, t).tasks[t]) <= FAR
  {
    hide Reply;
  }

  /** However a handler stops depending on its peer, it has no more than `FAR` steps to go. */
  lemma Return(r: Relay, a: Action)
    requires Shape(r) && Enabled(r, a) && !a.Arrive? && !a.Reload? && UpToPeer(r.tasks[a.t])
    ensures |Next(r, a).tasks| == |r.tasks| && Rank(Next(r, a).tasks[a.t]) <= FAR
  {
    match a
    case Receive(t, m) => hide OnReceive; RankAfterReceive(r, t, m);
    case Fail(t) => hide OnFail; RankAfterFail(r, t);
    case Write(t) => hide OnWrite; RankAfterWrite(r, t);
    case Pop(t) => hide Popped;
    case Lose(t) => hide Popped;
    case Stop(t) =>
    case Finish(t) =>
    case _ => hide Next;
  }

  lemma OnlyArrivalsAdd(r: Relay, a: Action)
    requires Shape(r) && Enabled(r, a) && !a.Arrive?
    ensures |Next(r, a).tasks| == |r.tasks|
  {
    if !a.Reload? {
      hide Next;
      OnlyStep(r, a);
    }
  }

  /** Nothing but a step of its own changes a handler, and none puts it further away than `FAR`. */
  lemma StepKeepsRank(r: Relay, a: Action, t: TaskId)
    requires Shape(r) && PendingWithin(r) && Enabled(r, a) && !a.Arrive? && t < |r.tasks| && Rank(r.tasks[t]) <= FAR
    ensures |Next(r, a).tasks| == |r.tasks| && Rank(Next(r, a).tasks[t]) <= FAR
    ensures !Own(a, t) ==> Next(r, a).tasks[t] == r.tasks[t]
  {
    hide PendingWithin;
    if !a.Reload? {
      hide Next;
      OnlyStep(r, a);
      if a.t == t {
        if UpToPeer(r.tasks[t]) {
          Return(r, a);
        } else {
          Descend(r, a);
        }
      }
    }
  }

  lemma CountStep(r: Relay, a: Action, t: TaskId)
    requires Shape(r) && PendingWithin(r) && Enabled(r, a) && t < |r.tasks| && !UpToPeer(r.tasks[t])
    ensures var n := Next(r, a);
            t < |n.tasks| && if Own(a, t) then Rank(n.tasks[t]) < Rank(r.tasks[t]) else n.tasks[t] == r.tasks[t]
  {
    hide PendingWithin;
    if !a.Arrive? && !a.Reload? {
      hide Next;
      OnlyStep(r, a);
      if a.t == t {
        Descend(r, a);
      }
    }
  }
}
