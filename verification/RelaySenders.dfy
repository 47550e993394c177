/**
 Linear ownership of the one-shot response senders: in every reachable state the sender of a registered
 controller is in exactly one place, and that place is the one its channel records.
 */
module RelaySenders {
  import opened Bytes
  import opened Messages
  import Auth
  import opened Relay
  import opened RelayFrames

  /** The sender a task has taken out of a pending map. */
  function Holding(task: Task): Option<TaskId> {
    match task
    case Accepting(_, _, sender) => Some(sender)
    case Confirming(_, _, sender) => Some(sender)
    case Answering(_, _, sender, _) => Some(sender)
    case _ => None
  }

  /** The senders `fail_pending` has swapped out and not yet resolved. */
  function Batch(task: Task): set<TaskId> {
    if task.Failing? then task.batch else {}
  }

  ghost predicate MapEntries(r: Relay)
    requires Shape(r)
  {
    forall g: nat, s :: g < |r.gens| && s in r.gens[g].pending ==>
      && r.gens[g].pending[s] < |r.chans|
      && r.chans[r.gens[g].pending[s]].place == InMap
      && r.chans[r.gens[g].pending[s]].home == Some(Home(g, s))
  }

  ghost predicate InMapBacked(r: Relay)
    requires Shape(r)
  {
    forall c: nat :: c < |r.chans| && r.chans[c].place == InMap ==>
      && r.chans[c].home.Some?
      && r.chans[c].home.value.gen < |r.gens|
      && r.chans[c].home.value.session in r.gens[r.chans[c].home.value.gen].pending
      && r.gens[r.chans[c].home.value.gen].pending[r.chans[c].home.value.session] == c
  }

  ghost predicate Holders(r: Relay)
    requires Shape(r)
  {
    forall t: nat :: t < |r.tasks| && Holding(r.tasks[t]).Some? ==>
      Holding(r.tasks[t]).value < |r.chans| && r.chans[Holding(r.tasks[t]).value].place == Held(t)
  }

  ghost predicate HeldBacked(r: Relay)
    requires Shape(r)
  {
    forall c: nat :: c < |r.chans| && r.chans[c].place.Held? ==>
      r.chans[c].place.task < |r.tasks| && Holding(r.tasks[r.chans[c].place.task]) == Some(c)
  }

  ghost predicate Batches(r: Relay)
    requires Shape(r)
  {
    forall t: nat, c: nat {:trigger c in Batch(r.tasks[t])} :: t < |r.tasks| && c in Batch(r.tasks[t]) ==>
      c < |r.chans| && r.chans[c].place == InBatch(t)
  }

  ghost predicate BatchBacked(r: Relay)
    requires Shape(r)
  {
    forall c: nat :: c < |r.chans| && r.chans[c].place.InBatch? ==>
      r.chans[c].place.task < |r.tasks| && c in Batch(r.tasks[r.chans[c].place.task])
  }

  ghost predicate Linear(r: Relay) {
    && Shape(r)
    && MapEntries(r) && InMapBacked(r) && Holders(r) && HeldBacked(r) && Batches(r) && BatchBacked(r)
  }

  /** How far a task is as a controller waiting for a session. */
  datatype Stage = Fresh | Opening | Cleanup | Concluding | Over | Elsewhere

  function StageOf(task: Task): Stage {
    match task
    case Greeting => Fresh
    case Welcoming(_, _, _) => Fresh
    case Requesting => Fresh
    case Counting => Fresh
    case Listing(_) => Fresh
    case Finding(_, _) => Fresh
    case Enrolling(_, _, _) => Fresh
    case Queueing(_, _, _) => Opening
    case Waiting(_, _, _) => Opening
    case Cleaning(_, _, _, _, _) => Cleanup
    case Answering(_, _, _, _) => Concluding
    case Replying(_, _, _) => Concluding
    case Granting(_, _, _) => Concluding
    case Bridging(_, _, _) => Concluding
    case Done => Over
    case _ => Elsewhere
  }

  ghost predicate Newborn(r: Relay)
    requires Shape(r)
  {
    forall c: nat :: c < |r.tasks| && StageOf(r.tasks[c]) == Fresh ==> r.chans[c] == IDLE
  }

  // ---------------------------------------------------------------- one step at a time

  /** No sender moves between `r` and `n`. */
  ghost predicate SameSenders(r: Relay, n: Relay)
    requires Shape(r) && Shape(n)
  {
    && |n.tasks| == |r.tasks| && |r.gens| <= |n.gens|
    && (forall c: nat :: c < |r.chans| ==> n.chans[c].place == r.chans[c].place && n.chans[c].home == r.chans[c].home)
    && (forall t: nat :: t < |r.tasks| ==>
          Holding(n.tasks[t]) == Holding(r.tasks[t]) && Batch(n.tasks[t]) == Batch(r.tasks[t]))
    && (forall g: nat :: g < |r.gens| ==> n.gens[g].pending == r.gens[g].pending)
    && (forall g: nat :: |r.gens| <= g < |n.gens| ==> n.gens[g].pending == map[])
  }

  lemma QuietStep(r: Relay, n: Relay)
    requires Linear(r) && Shape(n) && SameSenders(r, n)
    ensures Linear(n)
  {
    forall t: nat, c: nat {:trigger c in Batch(n.tasks[t])} | t < |n.tasks| && c in Batch(n.tasks[t])
      ensures c < |n.chans| && n.chans[c].place == InBatch(t)
    {
      assert c in Batch(r.tasks[t]);
    }
  }

  /** Task `t` lets go of the sender it holds; nothing else moves. */
  lemma SpendStep(r: Relay, n: Relay, t: TaskId, c: TaskId, ch: Chan, task: Task)
    requires Linear(r) && t < |r.tasks| && Holding(r.tasks[t]) == Some(c)
    requires ch.place == Spent && Holding(task) == None && Batch(task) == {}
    requires n.chans == r.chans[c := ch] && n.tasks == r.tasks[t := task] && n.gens == r.gens && |n.logs| == |r.logs|
    ensures Linear(n)
  {
    forall u: nat, x: nat {:trigger x in Batch(n.tasks[u])} | u < |n.tasks| && x in Batch(n.tasks[u])
      ensures x < |n.chans| && n.chans[x].place == InBatch(u)
    {
      assert x in Batch(r.tasks[u]);
    }
  }

  /** Task `t` takes the entry of `session` out of a map and holds it, or drops it at once. */
  lemma TakeStep(r: Relay, n: Relay, t: TaskId, gen: GenId, session: SessionId, ch: Chan, task: Task)
    requires Linear(r) && t < |r.tasks| && gen < |r.gens| && session in r.gens[gen].pending
    requires Holding(r.tasks[t]) == None && Batch(r.tasks[t]) == {} && Batch(task) == {}
    requires var c := r.gens[gen].pending[session];
             || (ch.place == Held(t) && Holding(task) == Some(c))
             || (ch.place == Spent && Holding(task) == None)
    requires n.chans == r.chans[r.gens[gen].pending[session] := ch] && n.tasks == r.tasks[t := task]
    requires n.gens == WithoutPending(r, gen, session).gens && |n.logs| == |r.logs|
    ensures Linear(n)
  {
    forall u: nat, x: nat {:trigger x in Batch(n.tasks[u])} | u < |n.tasks| && x in Batch(n.tasks[u])
      ensures x < |n.chans| && n.chans[x].place == InBatch(u)
    {
      assert x in Batch(r.tasks[u]);
    }
  }

  /** Task `t` creates its channel and puts the sender into a map. */
  lemma RegisterStep(r: Relay, n: Relay, t: TaskId, gen: GenId, session: SessionId, ch: Chan, task: Task)
    requires Linear(r) && t < |r.tasks| && gen < |r.gens| && session !in r.gens[gen].pending
    requires r.chans[t].place == Unborn && ch.place == InMap && ch.home == Some(Home(gen, session))
    requires Holding(r.tasks[t]) == Holding(task) == None && Batch(r.tasks[t]) == Batch(task) == {}
    requires n.chans == r.chans[t := ch] && n.tasks == r.tasks[t := task] && |n.logs| == |r.logs|
    requires n.gens == r.gens[gen := r.gens[gen].(pending := r.gens[gen].pending[session := t])]
    ensures Linear(n)
  {
    forall u: nat, x: nat {:trigger x in Batch(n.tasks[u])} | u < |n.tasks| && x in Batch(n.tasks[u])
      ensures x < |n.chans| && n.chans[x].place == InBatch(u)
    {
      assert x in Batch(r.tasks[u]);
    }
  }

  lemma LinearStep(r: Relay, a: Action)
    requires Shape(r) && Linear(r) && Newborn(r) && Enabled(r, a)
    ensures Linear(Next(r, a))
  {
    hide Linear;
    hide Newborn;
    match a
    case Arrive => LinearArrive(r);
    case Reload(auth) => QuietStep(r, r.(auth := auth));
    case Receive(t, m) => LinearReceive(r, t, m);
    case Write(t) => LinearWrite(r, t);
    case Fail(t) => LinearFail(r, t);
    case Lock(t) => LinearLock(r, t);
    case Enqueue(t) => LinearEnqueue(r, t);
    case Pop(t) => QuietStep(r, OnPop(r, t));
    case Lose(t) => QuietStep(r, OnLose(r, t));
    case Stop(t) => QuietStep(r, OnStop(r, t));
    case Resolve(t, c) => LinearResolve(r, t, c);
    case Collect(t) => LinearCollect(r, t);
    case Expire(t) => LinearExpire(r, t);
    case Finish(t) => LinearFinish(r, t);
  }

  lemma LinearEnqueue(r: Relay, t: TaskId)
    requires Shape(r) && Linear(r) && CanEnqueue(r, t)
    ensures Linear(OnEnqueue(r, t))
  {
    hide Linear;
    if r.gens[r.tasks[t].gen].accepting {
      QuietStep(r, Enqueued(r, t));
    } else {
      QuietStep(r, HungUp(r, t));
    }
  }

  lemma LinearCollect(r: Relay, t: TaskId)
    requires Shape(r) && Linear(r) && CanCollect(r, t)
    ensures Linear(OnCollect(r, t))
  {
    hide Linear;
    QuietStep(r, OnCollect(r, t));
  }

  lemma LinearExpire(r: Relay, t: TaskId)
    requires Shape(r) && Linear(r) && CanExpire(r, t)
    ensures Linear(OnExpire(r, t))
  {
    hide Linear;
    QuietStep(r, OnExpire(r, t));
  }

  lemma LinearWrite(r: Relay, t: TaskId)
    requires Shape(r) && Linear(r) && CanWrite(r, t)
    ensures Linear(OnWrite(r, t))
  {
    hide Linear;
    QuietStep(r, OnWrite(r, t));
  }

  lemma LinearArrive(r: Relay)
    requires Shape(r) && Linear(r) && CanArrive(r)
    ensures Linear(OnArrive(r))
  {
  }

  lemma LinearVerdict(r: Relay, t: TaskId, m: Message)
    requires Shape(r) && Linear(r) && CanReceive(r, t) && r.tasks[t].Confirming?
    ensures Linear(OnReceive(r, t, m))
  {
    var n, c := OnReceive(r, t, m), r.tasks[t].sender;
    SpendStep(r, n, t, c, n.chans[c], n.tasks[t]);
  }

  lemma LinearReceive(r: Relay, t: TaskId, m: Message)
    requires Shape(r) && Linear(r) && CanReceive(r, t)
    ensures Linear(OnReceive(r, t, m))
  {
    hide Linear;
    if r.tasks[t].Confirming? {
      LinearVerdict(r, t, m);
    } else {
      QuietStep(r, OnReceive(r, t, m));
    }
  }

  lemma LinearRefused(r: Relay, t: TaskId)
    requires Shape(r) && Linear(r) && CanFail(r, t) && (r.tasks[t].Confirming? || r.tasks[t].Accepting?)
    ensures Linear(OnFail(r, t))
  {
    var n, c := OnFail(r, t), r.tasks[t].sender;
    SpendStep(r, n, t, c, n.chans[c], n.tasks[t]);
  }

  lemma LinearFail(r: Relay, t: TaskId)
    requires Shape(r) && Linear(r) && CanFail(r, t)
    ensures Linear(OnFail(r, t))
  {
    hide Linear;
    if r.tasks[t].Confirming? || r.tasks[t].Accepting? {
      LinearRefused(r, t);
    } else {
      QuietStep(r, OnFail(r, t));
    }
  }

  lemma LinearAnswered(r: Relay, t: TaskId)
    requires Shape(r) && Linear(r) && CanFinish(r, t) && r.tasks[t].Answering?
    ensures Linear(OnFinish(r, t))
  {
    var n, c := OnFinish(r, t), r.tasks[t].sender;
    SpendStep(r, n, t, c, n.chans[c], n.tasks[t]);
  }

  lemma LinearFinish(r: Relay, t: TaskId)
    requires Shape(r) && Linear(r) && CanFinish(r, t)
    ensures Linear(OnFinish(r, t))
  {
    hide Linear;
    if r.tasks[t].Answering? {
      LinearAnswered(r, t);
    } else {
      QuietStep(r, OnFinish(r, t));
    }
  }

  lemma LinearLock(r: Relay, t: TaskId)
    requires Shape(r) && Linear(r) && Newborn(r) && CanLock(r, t)
    ensures Linear(OnLock(r, t))
  {
    hide Linear;
    hide Newborn;
    match r.tasks[t]
    case Registering(_, _) => LinearRegister(r, t);
    case Replacing(_, _, _, _) => QuietStep(r, Replace(r, t));
    case Draining(_, _) => DrainLinear(r, t);
    case Unregistering(_, _) => QuietStep(r, Unregister(r, t));
    case Locating(_, _) => LinearLocate(r, t);
    case Claiming(_, _, _) => LinearClaim(r, t);
    case Counting => QuietStep(r, Count(r, t));
    case Finding(_, _) => LinearFind(r, t);
    case Enrolling(_, _, _) => LinearEnrol(r, t);
    case Cleaning(_, _, _, _, _) => LinearCleanUp(r, t);
  }

  lemma LinearRegister(r: Relay, t: TaskId)
    requires Shape(r) && Linear(r) && CanLock(r, t) && r.tasks[t].Registering?
    ensures Linear(Register(r, t))
  {
    hide Linear;
    QuietStep(r, Register(r, t));
  }

  lemma LinearLocate(r: Relay, t: TaskId)
    requires Shape(r) && Linear(r) && CanLock(r, t) && r.tasks[t].Locating?
    ensures Linear(Locate(r, t))
  {
    hide Linear;
    QuietStep(r, Locate(r, t));
  }

  lemma LinearFind(r: Relay, t: TaskId)
    requires Shape(r) && Linear(r) && CanLock(r, t) && r.tasks[t].Finding?
    ensures Linear(Find(r, t))
  {
    hide Linear;
    QuietStep(r, Find(r, t));
  }

  lemma LinearClaim(r: Relay, t: TaskId)
    requires Shape(r) && Linear(r) && CanLock(r, t) && r.tasks[t].Claiming?
    ensures Linear(Claim(r, t))
  {
    hide Linear;
    var n, task := Claim(r, t), r.tasks[t];
    if task.session in r.gens[task.gen].pending {
      var c := r.gens[task.gen].pending[task.session];
      TakeStep(r, n, t, task.gen, task.session, n.chans[c], n.tasks[t]);
    } else {
      QuietStep(r, n);
    }
  }

  lemma LinearCleanUp(r: Relay, t: TaskId)
    requires Shape(r) && Linear(r) && CanLock(r, t) && r.tasks[t].Cleaning?
    ensures Linear(CleanUp(r, t))
  {
    hide Linear;
    var n, task := CleanUp(r, t), r.tasks[t];
    if task.session in r.gens[task.gen].pending {
      var c := r.gens[task.gen].pending[task.session];
      TakeStep(r, n, t, task.gen, task.session, n.chans[c], n.tasks[t]);
    } else {
      QuietStep(r, n);
    }
  }

  lemma LinearEnrol(r: Relay, t: TaskId)
    requires Shape(r) && Linear(r) && Newborn(r) && CanLock(r, t) && r.tasks[t].Enrolling?
    ensures Linear(Enrol(r, t))
  {
    hide Linear;
    var n, task := Enrol(r, t), r.tasks[t];
    if Registrable(r.gens[task.gen].pending, task.session) {
      assert r.chans[t] == IDLE;
      RegisterStep(r, n, t, task.gen, task.session, n.chans[t], n.tasks[t]);
    } else {
      QuietStep(r, n);
    }
  }

  lemma DrainBatches(r: Relay, t: TaskId)
    requires Linear(r) && CanLock(r, t) && r.tasks[t].Draining?
    ensures Batches(Drain(r, t))
  {
    hide InMapBacked;
    hide Holders;
    hide HeldBacked;
    hide BatchBacked;
    var n := Drain(r, t);
    var pending := r.gens[r.tasks[t].gen].pending;
    forall u: nat, c: nat {:trigger c in Batch(n.tasks[u])} | u < |n.tasks| && c in Batch(n.tasks[u])
      ensures c < |n.chans| && n.chans[c].place == InBatch(u)
    {
      if u == t {
        var s :| s in pending && pending[s] == c;
      } else {
        assert c in Batch(r.tasks[u]);
      }
    }
  }

  lemma DrainLinear(r: Relay, t: TaskId)
    requires Shape(r) && Linear(r) && CanLock(r, t) && r.tasks[t].Draining?
    ensures Linear(Drain(r, t))
  {
    DrainBatches(r, t);
    hide Batches;
  }

  lemma LinearResolve(r: Relay, t: TaskId, c: TaskId)
    requires Shape(r) && Linear(r) && CanResolve(r, t, c)
    ensures Linear(OnResolve(r, t, c))
  {
    var n := OnResolve(r, t, c);
    assert c in Batch(r.tasks[t]);
    forall u: nat, x: nat {:trigger x in Batch(n.tasks[u])} | u < |n.tasks| && x in Batch(n.tasks[u])
      ensures x < |n.chans| && n.chans[x].place == InBatch(u)
    {
      assert x in Batch(r.tasks[u]);
    }
  }

  // ---------------------------------------------------------------- after a sender is spent

  /** The entry under a task's own key, as the maps record it. */
  lemma EntryUnder(r: Relay, gen: GenId, session: SessionId)
    requires Shape(r) && Linear(r) && gen < |r.gens| && session in r.gens[gen].pending
    ensures var c := r.gens[gen].pending[session];
            c < |r.chans| && r.chans[c].place == InMap && r.chans[c].home == Some(Home(gen, session))
  {
  }

  predicate Answered(ch: Chan) {
    ch.inbox.Stream? || ch.inbox.Refusal? || ch.inbox.Closed?
  }

  /** Nothing is ever sent into a channel again: at most, its controller stops listening. */
  predicate Settled(before: Chan, after: Chan) {
    after == before || after == Deaf(before)
  }

  lemma SettledLock(r: Relay, t: TaskId, c: TaskId)
    requires Shape(r) && Linear(r) && CanLock(r, t) && c < |r.chans| && r.chans[c].place == Spent
    requires r.tasks[t].Enrolling? ==> r.chans[t] == IDLE
    ensures c < |OnLock(r, t).chans| && Settled(r.chans[c], OnLock(r, t).chans[c])
  {
    match r.tasks[t]
    case Draining(_, _) => SettledDrain(r, t, c);
    case Claiming(_, session, gen) =>
      if session in r.gens[gen].pending {
        EntryUnder(r, gen, session);
      }
      hide Linear;
    case Cleaning(_, session, gen, _, _) =>
      if session in r.gens[gen].pending {
        EntryUnder(r, gen, session);
      }
      hide Linear;
    case _ => hide Linear;
  }

  lemma SettledDrain(r: Relay, t: TaskId, c: TaskId)
    requires Shape(r) && Linear(r) && CanLock(r, t) && r.tasks[t].Draining? && c < |r.chans| && r.chans[c].place != InMap
    ensures var n := OnLock(r, t); |n.chans| == |r.chans| && n.chans[c] == r.chans[c]
  {
    var pending := r.gens[r.tasks[t].gen].pending;
    assert forall s :: s in pending ==> r.chans[pending[s]].place == InMap;
  }

  lemma SettledReceive(r: Relay, t: TaskId, m: Message, c: TaskId)
    requires Shape(r) && CanReceive(r, t) && c < |r.chans| && Holding(r.tasks[t]) != Some(c)
    ensures c < |OnReceive(r, t, m).chans| && Settled(r.chans[c], OnReceive(r, t, m).chans[c])
  {
    hide Auth.Admits;
  }

  lemma SettledFail(r: Relay, t: TaskId, c: TaskId)
    requires Shape(r) && CanFail(r, t) && c < |r.chans| && Holding(r.tasks[t]) != Some(c)
    ensures c < |OnFail(r, t).chans| && Settled(r.chans[c], OnFail(r, t).chans[c])
  {
  }

  lemma SettledFinish(r: Relay, t: TaskId, c: TaskId)
    requires Shape(r) && CanFinish(r, t) && c < |r.chans| && Holding(r.tasks[t]) != Some(c)
    ensures c < |OnFinish(r, t).chans| && Settled(r.chans[c], OnFinish(r, t).chans[c])
  {
  }

  lemma SettledEnqueue(r: Relay, t: TaskId, c: TaskId)
    requires Shape(r) && CanEnqueue(r, t) && c < |r.chans|
    ensures c < |OnEnqueue(r, t).chans| && Settled(r.chans[c], OnEnqueue(r, t).chans[c])
  {
  }

  lemma SettledCollect(r: Relay, t: TaskId, c: TaskId)
    requires Shape(r) && CanCollect(r, t) && c < |r.chans|
    ensures c < |OnCollect(r, t).chans| && Settled(r.chans[c], OnCollect(r, t).chans[c])
  {
  }

  lemma SettledStep(r: Relay, a: Action, c: TaskId)
    requires Shape(r) && Linear(r) && Enabled(r, a) && c < |r.chans| && r.chans[c].place == Spent
    requires !a.Arrive? && !a.Reload? ==>
      && a.t < |r.tasks| && Holding(r.tasks[a.t]) != Some(c) && (r.tasks[a.t].Enrolling? ==> r.chans[a.t] == IDLE)
    requires a.Resolve? ==> a.c != c
    ensures c < |Next(r, a).chans| && Settled(r.chans[c], Next(r, a).chans[c])
  {
    hide Linear;
    match a
    case Receive(t, m) => hide OnReceive; SettledReceive(r, t, m, c);
    case Fail(t) => hide OnFail; SettledFail(r, t, c);
    case Lock(t) => hide OnLock; SettledLock(r, t, c);
    case Enqueue(t) => hide OnEnqueue; SettledEnqueue(r, t, c);
    case Collect(t) => hide OnCollect; SettledCollect(r, t, c);
    case Finish(t) => hide OnFinish; SettledFinish(r, t, c);
    case Write(t) => hide Reply;
    case _ =>
  }

  // ---------------------------------------------------------------- control handlers

  lemma HeldByHolder(r: Relay, k: TaskId)
    requires Shape(r) && Linear(r) && k < |r.tasks| && Holding(r.tasks[k]).Some?
    ensures Holding(r.tasks[k]).value < |r.chans| && r.chans[Holding(r.tasks[k]).value].place == Held(k)
    ensures forall t: nat :: t < |r.tasks| ==> Holding(r.tasks[k]).value !in Batch(r.tasks[t])
  {
  }

  lemma ControlSparesSender(r: Relay, a: Action, c: TaskId)
    requires Shape(r) && Linear(r) && Enabled(r, a) && !a.Arrive? && !a.Reload? && IsControl(r.tasks[a.t])
    requires c < |r.chans| && r.chans[c].place.Held? && (a.Resolve? ==> a.c != c)
    ensures var n := Next(r, a); |n.chans| == |r.chans| && n.chans[c] == r.chans[c]
  {
    hide Linear;
    hide Next;
    if a.Lock? && r.tasks[a.t].Draining? {
      LockIsNext(r, a.t);
      SettledDrain(r, a.t, c);
    } else {
      ControlKeepsChannels(r, a, c);
    }
  }
}
