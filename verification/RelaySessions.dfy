/**
 Who answers whom: every phase that refers to another task, a generation or a channel refers to the right
 one, so a controller is only ever bridged to the agent session it asked for.
 */
module RelaySessions {
  import opened Bytes
  import opened Messages
  import opened Relay
  import opened RelaySenders
  import Auth

  /** `home` is registered under a generation of `device` with `session`. */
  predicate HomeIs(r: Relay, c: TaskId, device: DeviceId, session: SessionId) {
    && c < |r.chans| && r.chans[c].home.Some?
    && r.chans[c].home.value.session == session
    && r.chans[c].home.value.gen < |r.gens|
    && r.gens[r.chans[c].home.value.gen].device == device
  }

  predicate GenIs(r: Relay, gen: GenId, device: DeviceId) {
    gen < |r.gens| && r.gens[gen].device == device
  }

  predicate TaskRefs(r: Relay, t: TaskId)
    requires Shape(r) && t < |r.tasks|
  {
    match r.tasks[t]
    case Claiming(device, _, gen) => GenIs(r, gen, device)
    case Accepting(device, session, sender) => HomeIs(r, sender, device, session)
    case Confirming(device, session, sender) => HomeIs(r, sender, device, session)
    case Answering(_, session, sender, _) =>
      sender < |r.chans| && r.chans[sender].home.Some? && r.chans[sender].home.value.session == session
    case Enrolling(target, _, gen) => GenIs(r, gen, target)
    case Queueing(target, session, gen) => GenIs(r, gen, target) && r.chans[t].home == Some(Home(gen, session))
    case Waiting(target, session, gen) => GenIs(r, gen, target) && r.chans[t].home == Some(Home(gen, session))
    case Cleaning(target, session, gen, _, _) => GenIs(r, gen, target) && r.chans[t].home == Some(Home(gen, session))
    case Granting(target, session, stream) => stream < |r.tasks| && r.tasks[stream] == HandedOff(target, session, t)
    case Bridging(target, session, stream) => stream < |r.tasks| && r.tasks[stream] == HandedOff(target, session, t)
    case _ => true
  }

  predicate ChanRefs(r: Relay, c: TaskId)
    requires Shape(r) && c < |r.tasks|
  {
    var ch, stage := r.chans[c], StageOf(r.tasks[c]);
    && (ch.listening <==> stage == Opening)
    && (stage == Fresh || stage == Elsewhere ==> ch == IDLE)
    && (ch.home == None ==> ch == IDLE)
    && (ch.home.Some? ==> ch.place != Unborn && ch.home.value.gen < |r.gens|)
    && (ch.home.Some? && !ch.listening ==> ch.inbox == Consumed)
    && (ch.listening && ch.place != Spent ==> ch.inbox == Empty)
    && (ch.listening && ch.place == Spent ==> ch.inbox.Stream? || ch.inbox.Refusal? || ch.inbox.Closed?)
    && (ch.place == InMap ==> stage == Opening || stage == Cleanup)
    && (ch.inbox.Stream? ==>
          && ch.inbox.from < |r.tasks| && ch.home.Some?
          && r.tasks[ch.inbox.from] == HandedOff(r.gens[ch.home.value.gen].device, ch.home.value.session, c))
  }

  ghost predicate Refs(r: Relay)
    requires Shape(r)
  {
    && (forall d :: d in r.devices ==> GenIs(r, r.devices[d], d))
    && (forall t: nat :: t < |r.tasks| ==> TaskRefs(r, t))
    && (forall c: nat :: c < |r.tasks| ==> ChanRefs(r, c))
  }

  // ---------------------------------------------------------------- what every step keeps

  /** References stay good: generations keep their device, channels their home, handed-off streams their owner. */
  ghost predicate Stable(r: Relay, n: Relay)
    requires Shape(r) && Shape(n)
  {
    && |r.tasks| <= |n.tasks| && |r.gens| <= |n.gens|
    && (forall g: nat :: g < |r.gens| ==> n.gens[g].device == r.gens[g].device)
    && (forall c: nat :: c < |r.chans| && r.chans[c].home.Some? ==> n.chans[c].home == r.chans[c].home)
    && (forall u: nat :: u < |r.tasks| && r.tasks[u].HandedOff? ==> n.tasks[u] == r.tasks[u])
  }

  lemma TaskKept(r: Relay, n: Relay, u: TaskId)
    requires Shape(r) && Shape(n) && Stable(r, n) && u < |r.tasks| && TaskRefs(r, u)
    requires n.tasks[u] == r.tasks[u] && n.chans[u].home == r.chans[u].home
    ensures TaskRefs(n, u)
  {
  }

  lemma ChanKept(r: Relay, n: Relay, u: TaskId)
    requires Shape(r) && Shape(n) && Stable(r, n) && u < |r.tasks| && ChanRefs(r, u)
    requires StageOf(n.tasks[u]) == StageOf(r.tasks[u]) && n.chans[u] == r.chans[u]
    ensures ChanRefs(n, u)
  {
  }

  /** A step of task `t` that touches at most the channels of `t` and `c`. */
  lemma Framed(r: Relay, n: Relay, t: TaskId, c: TaskId)
    requires Shape(r) && Shape(n) && Refs(r) && Stable(r, n) && t < |r.tasks| == |n.tasks| && c < |r.tasks|
    requires forall u: nat :: u < |r.tasks| && u != t ==> n.tasks[u] == r.tasks[u]
    requires forall u: nat :: u < |r.tasks| && u != t && u != c ==> n.chans[u] == r.chans[u]
    requires forall d :: d in n.devices ==> GenIs(n, n.devices[d], d)
    requires TaskRefs(n, t) && ChanRefs(n, t) && ChanRefs(n, c)
    requires c != t ==> n.chans[c].home == r.chans[c].home
    ensures Refs(n)
  {
    hide TaskRefs;
    hide ChanRefs;
    forall u: nat | u < |n.tasks|
      ensures TaskRefs(n, u) && ChanRefs(n, u)
    {
      assert TaskRefs(r, u) && ChanRefs(r, u);
      if u != t {
        TaskKept(r, n, u);
        if u != c {
          ChanKept(r, n, u);
        }
      }
    }
  }

  /** A value, or the loss of the sender, arrives at channel `c`. */
  lemma SentRefs(r: Relay, n: Relay, c: TaskId, value: Inbox)
    requires Shape(r) && Shape(n) && Stable(r, n) && c < |r.tasks| && ChanRefs(r, c)
    requires n.tasks[c] == r.tasks[c] || (StageOf(r.tasks[c]) != Opening && StageOf(n.tasks[c]) in {Cleanup, Concluding, Over})
    requires n.chans[c] == Sent(r.chans[c], value)
    requires r.chans[c].place != Unborn && r.chans[c].place != Spent
    requires value.Stream? || value.Refusal? || value.Closed?
    requires r.chans[c].listening && value.Stream? && r.chans[c].home.Some? && r.chans[c].home.value.gen < |r.gens| ==>
               value.from < |n.tasks|
               && n.tasks[value.from] == HandedOff(r.gens[r.chans[c].home.value.gen].device, r.chans[c].home.value.session, c)
    ensures ChanRefs(n, c)
  {
  }

  /** The sender of channel `c` changes hands. */
  lemma MovedRefs(r: Relay, n: Relay, c: TaskId, place: Place)
    requires Shape(r) && Shape(n) && Stable(r, n) && c < |r.tasks| && ChanRefs(r, c)
    requires n.tasks[c] == r.tasks[c] || (StageOf(r.tasks[c]) != Opening && StageOf(n.tasks[c]) in {Cleanup, Concluding, Over})
    requires n.chans[c] == r.chans[c].(place := place) && (place.Held? || place.InBatch?)
    requires r.chans[c].place != Unborn && r.chans[c].place != Spent
    ensures ChanRefs(n, c)
  {
  }

  lemma RefsArrive(r: Relay)
    requires Shape(r) && Refs(r) && CanArrive(r)
    ensures Refs(OnArrive(r))
  {
    var n := OnArrive(r);
    forall u: nat | u < |n.tasks|
      ensures TaskRefs(n, u) && ChanRefs(n, u)
    {
      if u < |r.tasks| {
        assert TaskRefs(r, u) && ChanRefs(r, u);
      }
    }
  }

  predicate Advances(before: Stage, after: Stage) {
    match before
    case Fresh => after != Opening
    case Elsewhere => after == Elsewhere || after == Over
    case Opening => false
    case _ => after == Concluding || after == Over
  }

  /** The step changes no channel. */
  lemma RefsLocal(r: Relay, n: Relay, t: TaskId)
    requires Shape(r) && Shape(n) && Refs(r) && t < |r.tasks| == |n.tasks|
    requires n.chans == r.chans && n.tasks == r.tasks[t := n.tasks[t]] && Stable(r, n)
    requires forall d :: d in n.devices ==> GenIs(n, n.devices[d], d)
    requires TaskRefs(n, t)
    requires Advances(StageOf(r.tasks[t]), StageOf(n.tasks[t])) && r.chans[t].place != InMap
    ensures Refs(n)
  {
    assert ChanRefs(r, t);
    assert ChanRefs(n, t);
    Framed(r, n, t, t);
  }

  /** The step changes nothing but the phase of `t`. */
  lemma RefsPhase(r: Relay, n: Relay, t: TaskId)
    requires Shape(r) && Refs(r) && Shape(n) && t < |r.tasks| == |n.tasks| && !r.tasks[t].HandedOff?
    requires n.chans == r.chans && n.gens == r.gens && n.devices == r.devices && n.tasks == r.tasks[t := n.tasks[t]]
    requires TaskRefs(n, t)
    requires Advances(StageOf(r.tasks[t]), StageOf(n.tasks[t])) && StageOf(r.tasks[t]) !in {Opening, Cleanup}
    ensures Refs(n)
  {
    assert ChanRefs(r, t);
    RefsLocal(r, n, t);
  }

  /** A controller stops listening: nothing changes but its phase and its channel. */
  lemma RefsDeaf(r: Relay, n: Relay, t: TaskId)
    requires Shape(r) && Refs(r) && Shape(n) && t < |r.tasks| == |n.tasks| && StageOf(r.tasks[t]) == Opening
    requires n.gens == r.gens && n.devices == r.devices
    requires n.tasks == r.tasks[t := n.tasks[t]] && n.chans == r.chans[t := Deaf(r.chans[t])]
    requires TaskRefs(n, t) && (r.chans[t].place == Spent || StageOf(n.tasks[t]) == Cleanup)
    requires StageOf(n.tasks[t]) in {Cleanup, Concluding, Over}
    ensures Refs(n)
  {
    assert ChanRefs(r, t);
    Framed(r, n, t, t);
  }

  /** An agent-session task answers the controller whose sender it holds, and ends or hands its stream over. */
  lemma RefsAnswered(r: Relay, n: Relay, t: TaskId, c: TaskId, value: Inbox)
    requires Linear(r) && Shape(n) && Refs(r) && t < |r.tasks| == |n.tasks| && (r.tasks[t].Accepting? || r.tasks[t].Confirming?)
    requires c == r.tasks[t].sender && c < |r.chans|
    requires n.gens == r.gens && n.devices == r.devices
    requires n.tasks == r.tasks[t := n.tasks[t]] && n.chans == r.chans[c := Sent(r.chans[c], value)]
    requires value.Refusal? || value == Stream(t)
    requires n.tasks[t] == Done || n.tasks[t] == HandedOff(r.tasks[t].device, r.tasks[t].session, c)
    requires value.Stream? && r.chans[c].listening ==> n.tasks[t].HandedOff?
    ensures Refs(n)
  {
    hide MapEntries;
    hide InMapBacked;
    hide HeldBacked;
    hide Batches;
    hide BatchBacked;
    assert TaskRefs(r, t) && ChanRefs(r, t) && ChanRefs(r, c);
    assert Holding(r.tasks[t]) == Some(c) && r.chans[c].place == Held(t);
    assert c != t;
    SentRefs(r, n, c, value);
    Framed(r, n, t, c);
  }

  lemma RefsReceive(r: Relay, t: TaskId, m: Message)
    requires Shape(r) && Linear(r) && Refs(r) && CanReceive(r, t)
    ensures Refs(OnReceive(r, t, m))
  {
    hide Refs;
    hide Linear;
    if r.tasks[t].Confirming? {
      RefsVerdict(r, t, m);
    } else {
      RefsPhase(r, OnReceive(r, t, m), t);
    }
  }

  /** The agent's own word on the session: Ready, Failed, or anything else. */
  lemma RefsVerdict(r: Relay, t: TaskId, m: Message)
    requires Shape(r) && Linear(r) && Refs(r) && CanReceive(r, t) && r.tasks[t].Confirming?
    ensures Refs(OnReceive(r, t, m))
  {
    hide Linear;
    var session := r.tasks[t].session;
    var value := if m == Ready(session) then Stream(t)
                 else if m.Failed? && m.sessionId == session then Refusal(m.reason)
                 else Refusal("unexpected agent session response");
    assert TaskRefs(r, t);
    RefsAnswered(r, OnReceive(r, t, m), t, r.tasks[t].sender, value);
  }

  lemma RefsWrite(r: Relay, t: TaskId)
    requires Shape(r) && Refs(r) && CanWrite(r, t)
    ensures Refs(OnWrite(r, t))
  {
    assert TaskRefs(r, t);
    hide Refs;
    RefsPhase(r, OnWrite(r, t), t);
  }

  lemma RefsFail(r: Relay, t: TaskId)
    requires Shape(r) && Linear(r) && Refs(r) && CanFail(r, t)
    ensures Refs(OnFail(r, t))
  {
    hide Linear;
    hide Refs;
    if r.tasks[t].Accepting? || r.tasks[t].Confirming? {
      RefsRefused(r, t);
    } else {
      RefsPhase(r, OnFail(r, t), t);
    }
  }

  lemma RefsRefused(r: Relay, t: TaskId)
    requires Shape(r) && Linear(r) && Refs(r) && CanFail(r, t) && (r.tasks[t].Accepting? || r.tasks[t].Confirming?)
    ensures Refs(OnFail(r, t))
  {
    hide Linear;
    assert TaskRefs(r, t);
    RefsAnswered(r, OnFail(r, t), t, r.tasks[t].sender,
                 Refusal(if r.tasks[t].Accepting? then "could not accept agent session"
                         else "agent session did not become ready"));
  }

  lemma RefsLock(r: Relay, t: TaskId)
    requires Shape(r) && Linear(r) && Refs(r) && CanLock(r, t)
    ensures Refs(OnLock(r, t))
  {
    hide Linear;
    hide Refs;
    match r.tasks[t]
    case Registering(_, _) => RefsRegister(r, t);
    case Replacing(_, _, _, _) => RefsReplace(r, t);
    case Draining(_, _) => RefsDrain(r, t);
    case Unregistering(_, _) => RefsUnregister(r, t);
    case Locating(_, _) => RefsLocate(r, t);
    case Claiming(_, _, _) => RefsClaim(r, t);
    case Counting => RefsPhase(r, Count(r, t), t);
    case Finding(_, _) => RefsFind(r, t);
    case Enrolling(_, _, _) => RefsEnrol(r, t);
    case Cleaning(_, _, _, _, _) => RefsCleanUp(r, t);
  }

  lemma RefsRegister(r: Relay, t: TaskId)
    requires Shape(r) && Refs(r) && CanLock(r, t) && r.tasks[t].Registering?
    ensures Refs(Register(r, t))
  {
    assert ChanRefs(r, t) && TaskRefs(r, t);
    RefsLocal(r, Register(r, t), t);
  }

  lemma RefsReplace(r: Relay, t: TaskId)
    requires Shape(r) && Refs(r) && CanLock(r, t) && r.tasks[t].Replacing?
    ensures Refs(Replace(r, t))
  {
    assert ChanRefs(r, t) && TaskRefs(r, t);
    RefsLocal(r, Replace(r, t), t);
  }

  lemma RefsUnregister(r: Relay, t: TaskId)
    requires Shape(r) && Refs(r) && CanLock(r, t) && r.tasks[t].Unregistering?
    ensures Refs(Unregister(r, t))
  {
    assert ChanRefs(r, t) && TaskRefs(r, t);
    RefsLocal(r, Unregister(r, t), t);
  }

  lemma RefsLocate(r: Relay, t: TaskId)
    requires Shape(r) && Refs(r) && CanLock(r, t) && r.tasks[t].Locating?
    ensures Refs(Locate(r, t))
  {
    assert ChanRefs(r, t) && TaskRefs(r, t);
    RefsLocal(r, Locate(r, t), t);
  }

  lemma RefsFind(r: Relay, t: TaskId)
    requires Shape(r) && Refs(r) && CanLock(r, t) && r.tasks[t].Finding?
    ensures Refs(Find(r, t))
  {
    assert ChanRefs(r, t) && TaskRefs(r, t);
    RefsLocal(r, Find(r, t), t);
  }

  lemma RefsDrain(r: Relay, t: TaskId)
    requires Shape(r) && Linear(r) && Refs(r) && CanLock(r, t) && r.tasks[t].Draining?
    ensures Refs(Drain(r, t))
  {
    hide TaskRefs;
    hide ChanRefs;
    var n := Drain(r, t);
    forall u: nat | u < |n.tasks|
      ensures TaskRefs(n, u) && ChanRefs(n, u)
    {
      DrainedRefs(r, t, u);
    }
  }

  lemma DrainedRefs(r: Relay, t: TaskId, u: TaskId)
    requires Shape(r) && Linear(r) && Refs(r) && CanLock(r, t) && r.tasks[t].Draining? && u < |r.tasks|
    ensures TaskRefs(Drain(r, t), u) && ChanRefs(Drain(r, t), u)
  {
    var n, pending := Drain(r, t), r.gens[r.tasks[t].gen].pending;
    assert forall s :: s in pending ==> pending[s] < |r.chans| && r.chans[pending[s]].place == InMap;
    hide Linear;
    assert TaskRefs(r, u) && ChanRefs(r, u) && StageOf(n.tasks[u]) == StageOf(r.tasks[u]);
    hide TaskRefs;
    hide ChanRefs;
    if u != t {
      TaskKept(r, n, u);
    }
    if u in pending.Values {
      MovedRefs(r, n, u, InBatch(t));
    } else {
      ChanKept(r, n, u);
    }
  }

  /** Task `t` takes the sender of `c` out of a map, or drops it, and moves on. */
  lemma RefsTaken(r: Relay, n: Relay, t: TaskId, c: TaskId)
    requires Shape(r) && Shape(n) && Refs(r) && t < |r.tasks| == |n.tasks| && c < |r.chans| && r.chans[c].place == InMap
    requires n.tasks == r.tasks[t := n.tasks[t]] && n.chans == r.chans[c := n.chans[c]] && n.devices == r.devices
    requires |n.gens| == |r.gens| && forall g: nat :: g < |r.gens| ==> n.gens[g].device == r.gens[g].device
    requires n.chans[c] == r.chans[c].(place := Held(t)) || n.chans[c] == Sent(r.chans[c], Closed)
    requires !r.tasks[t].HandedOff? && TaskRefs(n, t) && Advances(StageOf(r.tasks[t]), StageOf(n.tasks[t]))
    requires StageOf(r.tasks[t]) == Elsewhere || (StageOf(r.tasks[t]) == Cleanup && (r.chans[t].place == InMap ==> c == t))
    ensures Refs(n)
  {
    assert Stable(r, n);
    assert ChanRefs(r, c) && ChanRefs(r, t);
    assert ChanRefs(n, t) && ChanRefs(n, c) by {
      if n.chans[c].place.Held? {
        MovedRefs(r, n, c, Held(t));
      } else {
        SentRefs(r, n, c, Closed);
      }
    }
    hide ChanRefs;
    Framed(r, n, t, c);
  }

  lemma RefsClaim(r: Relay, t: TaskId)
    requires Shape(r) && Linear(r) && Refs(r) && CanLock(r, t) && r.tasks[t].Claiming?
    ensures Refs(Claim(r, t))
  {
    hide Linear;
    var n, task := Claim(r, t), r.tasks[t];
    assert ChanRefs(r, t) && TaskRefs(r, t);
    if task.session in r.gens[task.gen].pending {
      EntryUnder(r, task.gen, task.session);
      RefsTaken(r, n, t, r.gens[task.gen].pending[task.session]);
    } else {
      RefsLocal(r, n, t);
    }
  }

  /** A controller still registered finds its own sender under its key. */
  lemma OwnEntry(r: Relay, t: TaskId)
    requires Shape(r) && Linear(r) && Refs(r) && t < |r.tasks| && r.tasks[t].Cleaning? && r.chans[t].place == InMap
    ensures var task := r.tasks[t];
            task.gen < |r.gens| && task.session in r.gens[task.gen].pending && r.gens[task.gen].pending[task.session] == t
  {
    assert TaskRefs(r, t);
  }

  lemma RefsCleanUp(r: Relay, t: TaskId)
    requires Shape(r) && Linear(r) && Refs(r) && CanLock(r, t) && r.tasks[t].Cleaning?
    ensures Refs(CleanUp(r, t))
  {
    if r.chans[t].place == InMap {
      OwnEntry(r, t);
    }
    hide Linear;
    if r.tasks[t].session !in r.gens[r.tasks[t].gen].pending {
      RefsLocal(r, CleanUp(r, t), t);
    } else if r.tasks[t].answer {
      hide Refs;
      RefsWithdraw(r, t);
    } else {
      hide Refs;
      RefsDiscard(r, t);
    }
  }

  lemma RefsWithdraw(r: Relay, t: TaskId)
    requires Shape(r) && Linear(r) && Refs(r) && CanLock(r, t) && r.tasks[t].Cleaning?
    requires r.tasks[t].session in r.gens[r.tasks[t].gen].pending
    requires r.chans[t].place == InMap ==> r.gens[r.tasks[t].gen].pending[r.tasks[t].session] == t
    ensures Refs(Withdraw(r, t))
  {
    EntryUnder(r, r.tasks[t].gen, r.tasks[t].session);
    hide Linear;
    hide Refs;
    RefsTaken(r, Withdraw(r, t), t, r.gens[r.tasks[t].gen].pending[r.tasks[t].session]);
  }

  lemma RefsDiscard(r: Relay, t: TaskId)
    requires Shape(r) && Linear(r) && Refs(r) && CanLock(r, t) && r.tasks[t].Cleaning?
    requires r.tasks[t].session in r.gens[r.tasks[t].gen].pending
    requires r.chans[t].place == InMap ==> r.gens[r.tasks[t].gen].pending[r.tasks[t].session] == t
    ensures Refs(Discard(r, t))
  {
    EntryUnder(r, r.tasks[t].gen, r.tasks[t].session);
    hide Linear;
    hide Refs;
    RefsTaken(r, Discard(r, t), t, r.gens[r.tasks[t].gen].pending[r.tasks[t].session]);
  }

  lemma RefsEnrol(r: Relay, t: TaskId)
    requires Shape(r) && Refs(r) && CanLock(r, t) && r.tasks[t].Enrolling?
    ensures Refs(Enrol(r, t))
  {
    assert ChanRefs(r, t) && TaskRefs(r, t);
    if Registrable(r.gens[r.tasks[t].gen].pending, r.tasks[t].session) {
      Framed(r, Enrol(r, t), t, t);
    } else {
      RefsLocal(r, Enrol(r, t), t);
    }
  }

  lemma RefsEnqueued(r: Relay, t: TaskId)
    requires Shape(r) && Refs(r) && CanEnqueue(r, t)
    ensures Refs(Enqueued(r, t))
  {
    assert ChanRefs(r, t) && TaskRefs(r, t);
    Framed(r, Enqueued(r, t), t, t);
  }

  lemma RefsHungUp(r: Relay, t: TaskId)
    requires Shape(r) && Refs(r) && CanEnqueue(r, t)
    ensures Refs(HungUp(r, t))
  {
    assert TaskRefs(r, t);
    hide Refs;
    RefsDeaf(r, HungUp(r, t), t);
  }

  lemma RefsPop(r: Relay, t: TaskId)
    requires Shape(r) && Refs(r) && CanPop(r, t)
    ensures Refs(OnPop(r, t))
  {
    assert ChanRefs(r, t);
    RefsLocal(r, OnPop(r, t), t);
  }

  lemma RefsLose(r: Relay, t: TaskId)
    requires Shape(r) && Refs(r) && CanPop(r, t)
    ensures Refs(OnLose(r, t))
  {
    assert ChanRefs(r, t);
    RefsLocal(r, OnLose(r, t), t);
  }

  lemma RefsReload(r: Relay, auth: Auth.Snapshot)
    requires Shape(r) && Refs(r)
    ensures Refs(r.(auth := auth))
  {
    var n := r.(auth := auth);
    forall u: nat | u < |n.tasks|
      ensures TaskRefs(n, u) && ChanRefs(n, u)
    {
      assert TaskRefs(r, u) && ChanRefs(r, u);
    }
  }

  lemma RefsResolve(r: Relay, t: TaskId, c: TaskId)
    requires Shape(r) && Linear(r) && Refs(r) && CanResolve(r, t, c)
    ensures Refs(OnResolve(r, t, c))
  {
    assert c in Batch(r.tasks[t]);
    assert r.chans[c].place == InBatch(t);
    hide Linear;
    var n := OnResolve(r, t, c);
    assert ChanRefs(r, t) && ChanRefs(r, c);
    SentRefs(r, n, c, Refusal("device control connection ended"));
    Framed(r, n, t, c);
  }

  lemma RefsCollect(r: Relay, t: TaskId)
    requires Shape(r) && Refs(r) && CanCollect(r, t)
    ensures Refs(OnCollect(r, t))
  {
    hide Refs;
    if r.chans[t].inbox.Stream? {
      RefsGranted(r, t);
    } else {
      RefsTurnedDown(r, t);
    }
  }

  lemma RefsGranted(r: Relay, t: TaskId)
    requires Shape(r) && Refs(r) && CanCollect(r, t) && r.chans[t].inbox.Stream?
    ensures Refs(OnCollect(r, t))
  {
    assert ChanRefs(r, t) && TaskRefs(r, t);
    hide Refs;
    RefsDeaf(r, OnCollect(r, t), t);
  }

  lemma RefsTurnedDown(r: Relay, t: TaskId)
    requires Shape(r) && Refs(r) && CanCollect(r, t) && !r.chans[t].inbox.Stream?
    ensures Refs(OnCollect(r, t))
  {
    assert ChanRefs(r, t) && TaskRefs(r, t);
    hide Refs;
    RefsDeaf(r, OnCollect(r, t), t);
  }

  lemma RefsExpire(r: Relay, t: TaskId)
    requires Shape(r) && Refs(r) && CanExpire(r, t)
    ensures Refs(OnExpire(r, t))
  {
    assert TaskRefs(r, t);
    hide Refs;
    RefsDeaf(r, OnExpire(r, t), t);
  }

  lemma RefsFinish(r: Relay, t: TaskId)
    requires Shape(r) && Refs(r) && CanFinish(r, t) && !r.tasks[t].Answering?
    ensures Refs(OnFinish(r, t))
  {
    assert ChanRefs(r, t) && TaskRefs(r, t);
    RefsLocal(r, OnFinish(r, t), t);
  }

  lemma RefsAnswering(r: Relay, t: TaskId)
    requires Shape(r) && Linear(r) && Refs(r) && CanFinish(r, t) && r.tasks[t].Answering?
    ensures Refs(OnFinish(r, t))
  {
    var n, c := OnFinish(r, t), r.tasks[t].sender;
    assert Holding(r.tasks[t]) == Some(c);
    assert r.chans[c].place == Held(t);
    hide Linear;
    assert ChanRefs(r, t) && TaskRefs(r, t) && ChanRefs(r, c);
    SentRefs(r, n, c, Refusal(r.tasks[t].reason));
    Framed(r, n, t, c);
  }

  lemma RefsStep(r: Relay, a: Action)
    requires Shape(r) && Linear(r) && Refs(r) && Enabled(r, a)
    ensures Refs(Next(r, a))
  {
    hide Linear;
    hide Refs;
    match a
    case Arrive => RefsArrive(r);
    case Reload(auth) => RefsReload(r, auth);
    case Receive(t, m) => RefsReceive(r, t, m);
    case Write(t) => RefsWrite(r, t);
    case Fail(t) => RefsFail(r, t);
    case Lock(t) => RefsLock(r, t);
    case Enqueue(t) => if r.gens[r.tasks[t].gen].accepting { RefsEnqueued(r, t); } else { RefsHungUp(r, t); }
    case Pop(t) => RefsPop(r, t);
    case Lose(t) => RefsLose(r, t);
    case Stop(t) => RefsPhase(r, OnStop(r, t), t);
    case Resolve(t, c) => RefsResolve(r, t, c);
    case Collect(t) => RefsCollect(r, t);
    case Expire(t) => RefsExpire(r, t);
    case Finish(t) => if r.tasks[t].Answering? { RefsAnswering(r, t); } else { RefsFinish(r, t); }
  }

  // ---------------------------------------------------------------- streams

  predicate HasStream(r: Relay, c: TaskId, k: TaskId)
    requires Shape(r) && c < |r.tasks|
  {
    || (r.tasks[c].Bridging? && r.tasks[c].stream == k)
    || (r.tasks[c].Granting? && r.tasks[c].stream == k)
    || r.chans[c].inbox == Stream(k)
  }

  lemma StreamOwner(r: Relay, c: TaskId, k: TaskId)
    requires Linear(r) && Refs(r) && c < |r.tasks| && HasStream(r, c, k)
    ensures k < |r.tasks| && r.tasks[k].HandedOff? && r.tasks[k].receiver == c
  {
    assert TaskRefs(r, c) && ChanRefs(r, c);
  }

  lemma HandsOver(r: Relay, t: TaskId)
    requires Shape(r) && t < |r.tasks| && r.tasks[t].Confirming? && r.tasks[t].sender < |r.tasks| && r.tasks[t].sender != t
    ensures var n, c := OnReceive(r, t, Ready(r.tasks[t].session)), r.tasks[t].sender;
      |n.tasks| == |r.tasks| && if r.chans[c].listening then n.free == r.free && n.tasks[t].HandedOff? && HasStream(n, c, t)
      else n.free == r.free + 1 && n.tasks[t] == Done
  {
  }
}
