/**
 Requests on one generation: bounded pending maps, and Open frames that leave in the order in which
 registered controllers queued them.
 */
module RelayQueues {
  import opened Bytes
  import opened Messages
  import Auth
  import opened Relay
  import opened RelaySessions
  import opened RelayGenerations
  import opened RelayLogs

  function Sessions(requests: seq<Request>): seq<SessionId> {
    seq(|requests|, i requires 0 <= i < |requests| => requests[i].session)
  }

  predicate RegisteredAs(r: Relay, g: GenId, request: Request) {
    request.controller < |r.chans| && r.chans[request.controller].home == Some(Home(g, request.session))
  }

  predicate QueueOk(r: Relay, g: GenId)
    requires g < |r.gens|
  {
    var gen := r.gens[g];
    && |gen.pending| <= MAX_PENDING_SESSIONS_PER_DEVICE
    && |gen.queue| <= MAX_PENDING_SESSIONS_PER_DEVICE
    && gen.opens + gen.queue <= gen.requested
    && (gen.accepting ==> gen.opens + gen.queue == gen.requested)
    && forall i :: 0 <= i < |gen.requested| ==> RegisteredAs(r, g, gen.requested[i])
  }

  predicate Popping(task: Task) {
    task.Replacing? || task.Serving?
  }

  predicate SpokenOk(r: Relay, g: GenId)
    requires Shape(r) && g < |r.gens|
  {
    var gen := r.gens[g];
    && gen.handler < |r.tasks|
    && (r.tasks[gen.handler] == Done
        || (ChargeOf(r.tasks[gen.handler]).Charge? && ChargeOf(r.tasks[gen.handler]).gen == g))
    && OpensIn(r.logs[gen.handler].said) <= Sessions(gen.opens)
    && (Popping(r.tasks[gen.handler]) ==> OpensIn(r.logs[gen.handler].said) == Sessions(gen.opens))
  }

  ghost predicate Queues(r: Relay)
    requires Shape(r)
  {
    forall g: nat :: g < |r.gens| ==> QueueOk(r, g) && SpokenOk(r, g)
  }

  ghost predicate HomesKept(r: Relay, n: Relay) {
    |r.chans| <= |n.chans|
    && forall c: nat :: c < |r.chans| && r.chans[c].home.Some? ==> n.chans[c].home == r.chans[c].home
  }

  predicate SameQueue(a: Generation, b: Generation) {
    && a.handler == b.handler && a.accepting == b.accepting
    && a.queue == b.queue && a.requested == b.requested && a.opens == b.opens
  }

  /** The conversation of `t` may only move forward within its own generation. */
  predicate SameVoice(before: Task, after: Task) {
    || after == before
    || (before != Done && (Popping(after) ==> Popping(before))
        && (after == Done
            || match ChargeOf(before)
               case NoCharge => ChargeOf(after) == NoCharge
               case Charge(_, gen, _, _) => ChargeOf(after).Charge? && ChargeOf(after).gen == gen))
  }

  /** No queue changes, and no Open is written; pending maps stay within bounds. */
  lemma QueueQuiet(r: Relay, n: Relay)
    requires Shape(r) && Shape(n) && Queues(r) && |r.tasks| <= |n.tasks| && |n.gens| == |r.gens| && HomesKept(r, n)
    requires forall t: nat :: t < |r.tasks| ==> SameVoice(r.tasks[t], n.tasks[t])
    requires forall t: nat :: t < |r.tasks| ==> OpensIn(n.logs[t].said) == OpensIn(r.logs[t].said)
    requires forall g: nat :: g < |r.gens| ==> SameQueue(n.gens[g], r.gens[g])
    requires PendingWithin(n)
    ensures Queues(n)
  {
    forall g: nat | g < |n.gens|
      ensures QueueOk(n, g) && SpokenOk(n, g)
    {
      assert QueueOk(r, g) && SpokenOk(r, g);
      forall i | 0 <= i < |n.gens[g].requested|
        ensures RegisteredAs(n, g, n.gens[g].requested[i])
      {
        assert RegisteredAs(r, g, r.gens[g].requested[i]);
      }
    }
  }

  // ---------------------------------------------------------------- steps

  lemma NoOpenYet(log: Log)
    requires |log.said| == 1 && !log.said[0].Open?
    ensures OpensIn(log.said) == []
  {
    assert log.said[..0] == [];
  }

  /** Entries stay registered, the queue of generation `g` being the same. */
  lemma QueueKept(r: Relay, n: Relay, g: GenId)
    requires g < |r.gens| && g < |n.gens| && QueueOk(r, g) && HomesKept(r, n) && SameQueue(n.gens[g], r.gens[g])
    requires |n.gens[g].pending| <= MAX_PENDING_SESSIONS_PER_DEVICE
    ensures QueueOk(n, g)
  {
    forall i | 0 <= i < |n.gens[g].requested|
      ensures RegisteredAs(n, g, n.gens[g].requested[i])
    {
      assert RegisteredAs(r, g, r.gens[g].requested[i]);
    }
  }

  lemma QueueRegister(r: Relay, t: TaskId)
    requires Shape(r) && Queues(r) && LogsOk(r) && CanLock(r, t) && r.tasks[t].Registering?
    ensures Queues(Register(r, t))
  {
    var n := Register(r, t);
    assert PhaseLog(r.tasks[t], r.logs[t]);
    NoOpenYet(r.logs[t]);
    hide LogsOk;
    hide OpensIn;
    hide QueueOk;
    hide SpokenOk;
    forall g: nat | g < |n.gens|
      ensures QueueOk(n, g) && SpokenOk(n, g)
    {
      if g < |r.gens| {
        assert QueueOk(r, g) && SpokenOk(r, g);
        QueueBeside(r, t, g);
      } else {
        QueueOfNewcomer(r, t);
      }
    }
  }

  lemma QueueBeside(r: Relay, t: TaskId, g: GenId)
    requires Shape(r) && CanLock(r, t) && r.tasks[t].Registering? && g < |r.gens| && QueueOk(r, g) && SpokenOk(r, g)
    ensures QueueOk(Register(r, t), g) && SpokenOk(Register(r, t), g)
  {
    hide RegisteredAs;
    hide OpensIn;
    assert |r.gens[g].pending| <= MAX_PENDING_SESSIONS_PER_DEVICE;
    QueueKept(r, Register(r, t), g);
  }

  lemma QueueOfNewcomer(r: Relay, t: TaskId)
    requires Shape(r) && CanLock(r, t) && r.tasks[t].Registering? && OpensIn(r.logs[t].said) == []
    ensures QueueOk(Register(r, t), |r.gens|) && SpokenOk(Register(r, t), |r.gens|)
  {
    hide RegisteredAs;
    hide OpensIn;
    assert Sessions([]) == [];
  }

  lemma QueueEnqueued(r: Relay, t: TaskId)
    requires Shape(r) && Queues(r) && Refs(r) && CanEnqueue(r, t) && r.gens[r.tasks[t].gen].accepting
    ensures Queues(Enqueued(r, t))
  {
    var n, own := Enqueued(r, t), r.tasks[t].gen;
    assert TaskRefs(r, t);
    forall g: nat | g < |n.gens|
      ensures QueueOk(n, g) && SpokenOk(n, g)
    {
      assert QueueOk(r, g) && SpokenOk(r, g);
      forall i | 0 <= i < |n.gens[g].requested|
        ensures RegisteredAs(n, g, n.gens[g].requested[i])
      {
        if i < |r.gens[g].requested| {
          assert RegisteredAs(r, g, r.gens[g].requested[i]);
        }
      }
    }
  }

  /** The oldest request moves from the queue to the history of opens. */
  lemma PopSplit(gen: Generation)
    requires gen.queue != []
    ensures gen.opens + [gen.queue[0]] + gen.queue[1..] == gen.opens + gen.queue
    ensures Sessions(gen.opens + [gen.queue[0]]) == Sessions(gen.opens) + [gen.queue[0].session]
    ensures Sessions(gen.opens) <= Sessions(gen.opens + [gen.queue[0]])
  {
    assert gen.queue == [gen.queue[0]] + gen.queue[1..];
  }

  lemma PoppedQueue(r: Relay, n: Relay, t: TaskId, g: GenId)
    requires Shape(r) && Queues(r) && CanPop(r, t) && g < |r.gens|
    requires n.gens == Popped(r, t).gens && n.chans == r.chans
    ensures QueueOk(n, g)
  {
    hide SpokenOk;
    assert QueueOk(r, g);
    PopSplit(r.gens[r.tasks[t].gen]);
    forall i | 0 <= i < |n.gens[g].requested|
      ensures RegisteredAs(n, g, n.gens[g].requested[i])
    {
      assert RegisteredAs(r, g, r.gens[g].requested[i]);
    }
  }

  /** The select loop takes the oldest request; `spoken` says whether its Open gets written. */
  lemma QueuePop(r: Relay, n: Relay, t: TaskId, spoken: bool)
    requires Shape(r) && Shape(n) && Queues(r) && Lineage(r) && CanPop(r, t)
    requires n.gens == Popped(r, t).gens && n.chans == r.chans
    requires n.tasks == r.tasks[t := if spoken then r.tasks[t] else Draining(r.tasks[t].device, r.tasks[t].gen)]
    requires n.logs == if spoken then Said(r, t, Open(r.gens[r.tasks[t].gen].queue[0].session)).logs else r.logs
    ensures Queues(n)
  {
    hide QueueOk;
    hide OpensIn;
    hide Sessions;
    hide GenOk;
    hide EntryOk;
    hide Ordered;
    var own := r.tasks[t].gen;
    assert HandlerOk(r, t);
    OpensSnoc(r.logs[t].said, Open(r.gens[own].queue[0].session));
    PopSplit(r.gens[own]);
    forall g: nat | g < |n.gens|
      ensures QueueOk(n, g) && SpokenOk(n, g)
    {
      assert SpokenOk(r, g);
      PoppedQueue(r, n, t, g);
    }
  }

  lemma QueueLeave(r: Relay, t: TaskId)
    requires Shape(r) && Queues(r) && CanFinish(r, t) && r.tasks[t].Leaving?
    ensures Queues(OnFinish(r, t))
  {
    var n := OnFinish(r, t);
    forall g: nat | g < |n.gens|
      ensures QueueOk(n, g) && SpokenOk(n, g)
    {
      assert QueueOk(r, g) && SpokenOk(r, g);
      if g != r.tasks[t].gen {
        QueueKept(r, n, g);
      } else {
        assert r.gens[g].opens + [] == r.gens[g].opens;
        forall i | 0 <= i < |n.gens[g].requested|
          ensures RegisteredAs(n, g, n.gens[g].requested[i])
        {
          assert RegisteredAs(r, g, r.gens[g].requested[i]);
        }
      }
    }
  }

  /** A Ping is answered on the same channel, without an Open. */
  lemma QueuePong(r: Relay, t: TaskId)
    requires Shape(r) && Queues(r) && CanReceive(r, t) && r.tasks[t].Serving?
    ensures Queues(OnReceive(r, t, Ping))
  {
    PendingBounded(r);
    hide Queues;
    hide OpensIn;
    OpensSnoc(r.logs[t].said, Pong);
    QueueQuiet(r, OnReceive(r, t, Ping));
  }

  /** A step of task `t` that touches at most its own log and the channel of `c`. */
  lemma QueuePhase(r: Relay, n: Relay, t: TaskId, c: TaskId)
    requires Shape(r) && Queues(r) && t < |r.tasks| == |n.tasks| && c < |r.chans| == |n.chans| && |n.logs| == |r.logs|
    requires n.tasks == r.tasks[t := n.tasks[t]] && SameVoice(r.tasks[t], n.tasks[t]) && n.gens == r.gens
    requires n.logs == r.logs[t := n.logs[t]] && OpensIn(n.logs[t].said) == OpensIn(r.logs[t].said)
    requires n.chans == r.chans[c := n.chans[c]] && n.chans[c].home == r.chans[c].home
    ensures Queues(n)
  {
    PendingBounded(r);
    hide Queues;
    hide OpensIn;
    QueueQuiet(r, n);
  }

  lemma QueueReceive(r: Relay, t: TaskId, m: Message)
    requires Shape(r) && Queues(r) && CanReceive(r, t)
    ensures Queues(OnReceive(r, t, m))
  {
    hide Queues;
    if m == Ping && r.tasks[t].Serving? {
      QueuePong(r, t);
    } else if r.tasks[t].Confirming? {
      QueueVerdict(r, t, m);
    } else {
      hide OpensIn;
      hide Auth.Admits;
      QueuePhase(r, OnReceive(r, t, m), t, t);
    }
  }

  lemma QueueVerdict(r: Relay, t: TaskId, m: Message)
    requires Shape(r) && Queues(r) && CanReceive(r, t) && r.tasks[t].Confirming?
    ensures Queues(OnReceive(r, t, m))
  {
    hide Queues;
    hide OpensIn;
    QueuePhase(r, OnReceive(r, t, m), t, if r.tasks[t].sender < |r.chans| then r.tasks[t].sender else t);
  }

  lemma PendingBounded(r: Relay)
    requires Shape(r) && Queues(r)
    ensures PendingWithin(r)
  {
    forall g: nat | g < |r.gens|
      ensures |r.gens[g].pending| <= MAX_PENDING_SESSIONS_PER_DEVICE
    {
      assert QueueOk(r, g);
    }
  }

  lemma QueueWrite(r: Relay, t: TaskId)
    requires Shape(r) && Queues(r) && CanWrite(r, t)
    ensures Queues(OnWrite(r, t))
  {
    hide Queues;
    hide OpensIn;
    OpensSnoc(r.logs[t].said, Reply(r.tasks[t]));
    QueuePhase(r, OnWrite(r, t), t, t);
  }

  lemma QueueFail(r: Relay, t: TaskId)
    requires Shape(r) && Queues(r) && CanFail(r, t)
    ensures Queues(OnFail(r, t))
  {
    hide Queues;
    hide OpensIn;
    if r.tasks[t].Accepting? || r.tasks[t].Confirming? {
      QueueRefused(r, t);
    } else {
      QueuePhase(r, OnFail(r, t), t, t);
    }
  }

  lemma QueueRefused(r: Relay, t: TaskId)
    requires Shape(r) && Queues(r) && CanFail(r, t) && (r.tasks[t].Accepting? || r.tasks[t].Confirming?)
    ensures Queues(OnFail(r, t))
  {
    hide Queues;
    hide OpensIn;
    QueuePhase(r, OnFail(r, t), t, if r.tasks[t].sender < |r.chans| then r.tasks[t].sender else t);
  }

  lemma QueueHungUp(r: Relay, t: TaskId)
    requires Shape(r) && Queues(r) && CanEnqueue(r, t)
    ensures Queues(HungUp(r, t))
  {
    PendingBounded(r);
    hide Queues;
    hide OpensIn;
    QueueQuiet(r, HungUp(r, t));
  }

  lemma QueueStop(r: Relay, t: TaskId)
    requires Shape(r) && Queues(r) && CanStop(r, t)
    ensures Queues(OnStop(r, t))
  {
    PendingBounded(r);
    hide Queues;
    hide OpensIn;
    QueueQuiet(r, OnStop(r, t));
  }

  lemma QueueCollect(r: Relay, t: TaskId)
    requires Shape(r) && Queues(r) && CanCollect(r, t)
    ensures Queues(OnCollect(r, t))
  {
    PendingBounded(r);
    hide Queues;
    hide OpensIn;
    QueueQuiet(r, OnCollect(r, t));
  }

  lemma QueueExpire(r: Relay, t: TaskId)
    requires Shape(r) && Queues(r) && CanExpire(r, t)
    ensures Queues(OnExpire(r, t))
  {
    PendingBounded(r);
    hide Queues;
    hide OpensIn;
    QueueQuiet(r, OnExpire(r, t));
  }

  lemma QueueFinish(r: Relay, t: TaskId)
    requires Shape(r) && Queues(r) && CanFinish(r, t) && !r.tasks[t].Leaving?
    ensures Queues(OnFinish(r, t))
  {
    PendingBounded(r);
    hide Queues;
    hide OpensIn;
    QueueQuiet(r, OnFinish(r, t));
  }

  lemma QueueReplace(r: Relay, t: TaskId)
    requires Shape(r) && Queues(r) && CanLock(r, t) && r.tasks[t].Replacing?
    ensures Queues(Replace(r, t))
  {
    PendingBounded(r);
    hide Queues;
    hide OpensIn;
    QueueQuiet(r, Replace(r, t));
  }

  lemma QueueDrain(r: Relay, t: TaskId)
    requires Shape(r) && Queues(r) && CanLock(r, t) && r.tasks[t].Draining?
    ensures Queues(Drain(r, t))
  {
    PendingBounded(r);
    hide Queues;
    hide OpensIn;
    QueueQuiet(r, Drain(r, t));
  }

  lemma QueueUnregister(r: Relay, t: TaskId)
    requires Shape(r) && Queues(r) && CanLock(r, t) && r.tasks[t].Unregistering?
    ensures Queues(Unregister(r, t))
  {
    PendingBounded(r);
    hide Queues;
    hide OpensIn;
    QueueQuiet(r, Unregister(r, t));
  }

  lemma QueueLocate(r: Relay, t: TaskId)
    requires Shape(r) && Queues(r) && CanLock(r, t) && r.tasks[t].Locating?
    ensures Queues(Locate(r, t))
  {
    PendingBounded(r);
    hide Queues;
    hide OpensIn;
    QueueQuiet(r, Locate(r, t));
  }

  lemma QueueCount(r: Relay, t: TaskId)
    requires Shape(r) && Queues(r) && CanLock(r, t) && r.tasks[t].Counting?
    ensures Queues(Count(r, t))
  {
    PendingBounded(r);
    hide Queues;
    hide OpensIn;
    QueueQuiet(r, Count(r, t));
  }

  lemma QueueFind(r: Relay, t: TaskId)
    requires Shape(r) && Queues(r) && CanLock(r, t) && r.tasks[t].Finding?
    ensures Queues(Find(r, t))
  {
    PendingBounded(r);
    hide Queues;
    hide OpensIn;
    QueueQuiet(r, Find(r, t));
  }

  lemma QueueClaim(r: Relay, t: TaskId)
    requires Shape(r) && Queues(r) && CanLock(r, t) && r.tasks[t].Claiming?
    ensures Queues(Claim(r, t))
  {
    PendingBounded(r);
    hide Queues;
    hide OpensIn;
    QueueQuiet(r, Claim(r, t));
  }

  lemma QueueCleanUp(r: Relay, t: TaskId)
    requires Shape(r) && Queues(r) && CanLock(r, t) && r.tasks[t].Cleaning?
    ensures Queues(CleanUp(r, t))
  {
    PendingBounded(r);
    hide Queues;
    hide OpensIn;
    QueueQuiet(r, CleanUp(r, t));
  }

  lemma QueueEnrol(r: Relay, t: TaskId)
    requires Shape(r) && Queues(r) && Refs(r) && CanLock(r, t) && r.tasks[t].Enrolling?
    ensures Queues(Enrol(r, t))
  {
    assert ChanRefs(r, t);
    PendingBounded(r);
    hide Refs;
    hide Queues;
    hide OpensIn;
    QueueQuiet(r, Enrol(r, t));
  }

  lemma QueueResolve(r: Relay, t: TaskId, c: TaskId)
    requires Shape(r) && Queues(r) && CanResolve(r, t, c)
    ensures Queues(OnResolve(r, t, c))
  {
    PendingBounded(r);
    hide Queues;
    hide OpensIn;
    QueueQuiet(r, OnResolve(r, t, c));
  }

  lemma QueueArrive(r: Relay)
    requires Shape(r) && Queues(r) && CanArrive(r)
    ensures Queues(OnArrive(r))
  {
    PendingBounded(r);
    hide Queues;
    hide OpensIn;
    QueueQuiet(r, OnArrive(r));
  }

  lemma QueueReload(r: Relay, auth: Auth.Snapshot)
    requires Shape(r) && Queues(r)
    ensures Queues(r.(auth := auth))
  {
    PendingBounded(r);
    hide Queues;
    QueueQuiet(r, r.(auth := auth));
  }

  lemma QueueLock(r: Relay, t: TaskId)
    requires Shape(r) && Queues(r) && Refs(r) && LogsOk(r) && CanLock(r, t)
    ensures Queues(OnLock(r, t))
  {
    hide Queues;
    hide Refs;
    hide LogsOk;
    match r.tasks[t]
    case Registering(_, _) => QueueRegister(r, t);
    case Replacing(_, _, _, _) => QueueReplace(r, t);
    case Draining(_, _) => QueueDrain(r, t);
    case Unregistering(_, _) => QueueUnregister(r, t);
    case Locating(_, _) => QueueLocate(r, t);
    case Claiming(_, _, _) => QueueClaim(r, t);
    case Counting => QueueCount(r, t);
    case Finding(_, _) => QueueFind(r, t);
    case Enrolling(_, _, _) => QueueEnrol(r, t);
    case Cleaning(_, _, _, _, _) => QueueCleanUp(r, t);
  }

  lemma QueuesStep(r: Relay, a: Action)
    requires Shape(r) && Queues(r) && Refs(r) && Lineage(r) && LogsOk(r) && Enabled(r, a)
    ensures Queues(Next(r, a))
  {
    hide Queues;
    hide Refs;
    hide Lineage;
    hide LogsOk;
    match a
    case Arrive => QueueArrive(r);
    case Reload(auth) => QueueReload(r, auth);
    case Receive(t, m) => QueueReceive(r, t, m);
    case Write(t) => QueueWrite(r, t);
    case Fail(t) => QueueFail(r, t);
    case Lock(t) => QueueLock(r, t);
    case Enqueue(t) => if r.gens[r.tasks[t].gen].accepting { QueueEnqueued(r, t); } else { QueueHungUp(r, t); }
    case Pop(t) => QueuePop(r, OnPop(r, t), t, true);
    case Lose(t) => QueuePop(r, OnLose(r, t), t, false);
    case Stop(t) => QueueStop(r, t);
    case Resolve(t, c) => QueueResolve(r, t, c);
    case Collect(t) => QueueCollect(r, t);
    case Expire(t) => QueueExpire(r, t);
    case Finish(t) => if r.tasks[t].Leaving? { QueueLeave(r, t); } else { QueueFinish(r, t); }
  }
}
