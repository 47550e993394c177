/** What holds in every state the relay can reach, for every behaviour of its peers and every interleaving. */
module RelayTheorems {
  import opened Bytes
  import opened Messages
  import Auth
  import opened Relay
  import opened RelayFrames
  import opened RelaySenders
  import opened RelaySessions
  import opened RelayPermits
  import opened RelayGenerations
  import opened RelayLogs
  import opened RelayQueues

  ghost predicate Inv(r: Relay) {
    Shape(r) && Linear(r) && Refs(r) && Conserved(r) && Lineage(r) && LogsOk(r) && Queues(r)
  }

  lemma InvStart(auth: Auth.Snapshot)
    ensures Inv(Start(auth))
  {
  }

  lemma InvStep(r: Relay, a: Action)
    requires Inv(r) && Enabled(r, a)
    ensures Inv(Next(r, a))
  {
    assert Newborn(r) by {
      forall c: nat | c < |r.tasks| && StageOf(r.tasks[c]) == Fresh
        ensures r.chans[c] == IDLE
      {
        assert ChanRefs(r, c);
      }
    }
    hide Next;
    hide Enabled;
    hide Linear;
    hide Newborn;
    hide Refs;
    hide Conserved;
    hide Lineage;
    hide LogsOk;
    hide Queues;
    LinearStep(r, a);
    RefsStep(r, a);
    ConservedStep(r, a);
    LineageStep(r, a);
    LogsStep(r, a);
    QueuesStep(r, a);
  }

  lemma {:induction false} InvRun(states: seq<Relay>, actions: seq<Action>, i: nat)
    requires Run(states, actions) && i < |states|
    ensures Inv(states[i])
  {
    hide Inv;
    hide Next;
    if i == 0 {
      var auth :| states[0] == Start(auth);
      InvStart(auth);
    } else {
      InvRun(states, actions, i - 1);
      InvStep(states[i - 1], actions[i - 1]);
    }
  }

  /** Each state of a run is good, and the next follows from it. */
  lemma RunStep(states: seq<Relay>, actions: seq<Action>, k: nat)
    requires Run(states, actions) && k < |actions|
    ensures k + 1 < |states| && Inv(states[k]) && Shape(states[k])
    ensures Enabled(states[k], actions[k]) && states[k + 1] == Next(states[k], actions[k])
  {
    hide Inv;
    InvRun(states, actions, k);
  }

  ghost predicate Reachable(r: Relay) {
    exists states, actions :: Run(states, actions) && r in states
  }

  lemma ReachableInv(r: Relay)
    requires Reachable(r)
    ensures Inv(r)
  {
    hide Inv;
    hide Run;
    var states, actions :| Run(states, actions) && r in states;
    var i :| 0 <= i < |states| && states[i] == r;
    InvRun(states, actions, i);
  }

  /** Every object a phase refers to exists, so no lock-protected section is ever held up by the model. */
  lemma LockAlwaysOpens(r: Relay, t: TaskId)
    requires Inv(r) && t < |r.tasks| && Locks(r.tasks[t])
    ensures CanLock(r, t)
  {
    assert TaskRefs(r, t) && HandlerOk(r, t);
    hide Refs;
    hide Conserved;
    hide LogsOk;
    hide Queues;
    forall d | d in r.devices
      ensures r.devices[d] < |r.gens|
    {
      assert EntryOk(r, d);
    }
  }

  // ---------------------------------------------------------------- linear ownership

  /** A place in the relay's memory where a response sender can be. */
  datatype Spot = Entry(gen: GenId, session: SessionId) | InTask(task: TaskId) | AmongFailing(task: TaskId)

  predicate At(r: Relay, c: TaskId, spot: Spot) {
    match spot
    case Entry(gen, session) => gen < |r.gens| && session in r.gens[gen].pending && r.gens[gen].pending[session] == c
    case InTask(task) => task < |r.tasks| && Holding(r.tasks[task]) == Some(c)
    case AmongFailing(task) => task < |r.tasks| && c in Batch(r.tasks[task])
  }

  /** Where the sender of `c` is, if it still is anywhere, by what its channel records. */
  function SpotOf(ch: Chan): (spot: Option<Spot>) {
    match ch.place
    case InMap => if ch.home.Some? then Some(Entry(ch.home.value.gen, ch.home.value.session)) else None
    case Held(task) => Some(InTask(task))
    case InBatch(task) => Some(AmongFailing(task))
    case _ => None
  }

  /** A response sender that has not been used or dropped is in exactly one place; any other is in none. */
  lemma SenderInExactlyOnePlace(r: Relay, c: TaskId)
    requires Reachable(r) && Shape(r) && c < |r.chans|
    ensures r.chans[c].home.Some? && r.chans[c].place != Spent ==>
      exists spot :: At(r, c, spot) && forall other :: At(r, c, other) ==> other == spot
    ensures r.chans[c].home == None || r.chans[c].place == Spent ==> forall spot :: !At(r, c, spot)
  {
    hide Reachable;
    ReachableInv(r);
    assert ChanRefs(r, c);
    forall spot | At(r, c, spot)
      ensures SpotOf(r.chans[c]) == Some(spot)
    {
      if spot.AmongFailing? {
        assert c in Batch(r.tasks[spot.task]);
      }
    }
    if r.chans[c].home.Some? && r.chans[c].place != Spent {
      assert At(r, c, SpotOf(r.chans[c]).value);
    }
  }

  /** A registered controller's sender is used exactly when an answer lies in its inbox, as long as it listens. */
  lemma UsedMeansAnswered(r: Relay, c: TaskId)
    requires Reachable(r) && Shape(r) && c < |r.tasks| && (r.tasks[c].Queueing? || r.tasks[c].Waiting?)
    ensures r.chans[c].home.Some?
    ensures r.chans[c].place == Spent <==> Answered(r.chans[c])
    ensures r.chans[c].place != Spent <==> r.chans[c].inbox == Empty
  {
    hide Reachable;
    ReachableInv(r);
    assert ChanRefs(r, c) && TaskRefs(r, c);
  }

  /** A sender that has been used or dropped is never used again. */
  lemma SpentForGood(r: Relay, a: Action, c: TaskId)
    requires Reachable(r) && Shape(r) && Enabled(r, a) && c < |r.chans| && r.chans[c].place == Spent
    ensures c < |Next(r, a).chans| && Settled(r.chans[c], Next(r, a).chans[c])
  {
    hide Reachable;
    ReachableInv(r);
    NotInHand(r, a, c);
    hide *;
    SettledStep(r, a, c);
  }

  lemma NotInHand(r: Relay, a: Action, c: TaskId)
    requires Inv(r) && Enabled(r, a) && c < |r.chans| && r.chans[c].place == Spent
    ensures Linear(r)
    ensures !a.Arrive? && !a.Reload? ==>
      && a.t < |r.tasks| && Holding(r.tasks[a.t]) != Some(c) && (r.tasks[a.t].Enrolling? ==> r.chans[a.t] == IDLE)
    ensures a.Resolve? ==> a.c != c
  {
    hide Conserved;
    hide Lineage;
    hide LogsOk;
    hide Queues;
    if !a.Arrive? && !a.Reload? {
      assert a.t < |r.tasks|;
      assert ChanRefs(r, a.t);
    }
    assert a.Resolve? ==> a.c in Batch(r.tasks[a.t]);
  }

  // ---------------------------------------------------------------- one verdict

  predicate IsVerdict(m: Message) {
    m.Ready? || m.Failed?
  }

  /** Each open request gets at most one of Ready and Failed, and it carries the requested session id. */
  lemma OneVerdictPerRequest(r: Relay, c: TaskId, i: nat, j: nat)
    requires Reachable(r) && Shape(r) && c < |r.tasks|
    requires r.logs[c].heard != [] && r.logs[c].heard[0].Hello? && r.logs[c].heard[0].role == RoleController
    requires i < |r.logs[c].said| && j < |r.logs[c].said|
    requires IsVerdict(r.logs[c].said[i]) && IsVerdict(r.logs[c].said[j])
    ensures i == j && |r.logs[c].heard| == 2 && r.logs[c].heard[1].OpenRequest?
    ensures r.logs[c].said[i].sessionId == r.logs[c].heard[1].sessionId
  {
    hide Reachable;
    ReachableInv(r);
    assert Disciplined(r.logs[c]);
  }

  // ---------------------------------------------------------------- routing

  lemma BridgedLogs(r: Relay, c: TaskId)
    requires Inv(r) && c < |r.tasks| && r.tasks[c].Bridging?
    ensures var target, session, k := r.tasks[c].target, r.tasks[c].session, r.tasks[c].stream;
            && k < |r.tasks|
            && ControllerLog(r.logs[c], [OpenRequest(target, session)], [Ready(session)])
            && SessionLog(r.logs[k], target, [SessionAttach(session), Ready(session)], [SessionAccepted(session)])
  {
    var k := r.tasks[c].stream;
    assert TaskRefs(r, c);
    assert PhaseLog(r.tasks[c], r.logs[c]) && PhaseLog(r.tasks[k], r.logs[k]);
  }

  /**
   A controller that asked for `target` and `session` is bridged only to a stream whose peer was let in as
   an agent session of `target` with that device's token, attached with `session` and then said Ready.
   */
  lemma BridgedToTheRightSession(r: Relay, c: TaskId)
    requires Reachable(r) && Shape(r) && c < |r.tasks| && r.tasks[c].Bridging?
    ensures var target, session, k := r.tasks[c].target, r.tasks[c].session, r.tasks[c].stream;
            && k < |r.tasks|
            && ControllerLog(r.logs[c], [OpenRequest(target, session)], [Ready(session)])
            && SessionLog(r.logs[k], target, [SessionAttach(session), Ready(session)], [SessionAccepted(session)])
  {
    hide Reachable;
    ReachableInv(r);
    BridgedLogs(r, c);
  }

  /** No stream is ever given to two controllers. */
  lemma StreamHasOneOwner(r: Relay, c: TaskId, d: TaskId, k: TaskId)
    requires Reachable(r) && Shape(r) && c < |r.tasks| && d < |r.tasks|
    requires HasStream(r, c, k) && HasStream(r, d, k)
    ensures c == d
  {
    hide HasStream;
    ReachableInv(r);
    StreamOwner(r, c, k);
    StreamOwner(r, d, k);
  }

  // ---------------------------------------------------------------- permits

  /** No permit is lost or invented, so the relay never bridges more than half its connections. */
  lemma PermitsAreConserved(r: Relay)
    requires Reachable(r)
    ensures r.free + TaskPermits(r.tasks) + InboxPermits(r.chans) == MAX_CONNECTIONS
    ensures Bridges(r.tasks) <= MAX_CONNECTIONS / 2
  {
    hide Reachable;
    ReachableInv(r);
    BridgesHoldTwo(r.tasks);
  }

  /**
   When a session says Ready, its stream goes to the controller it attached for, or, if that controller has
   given up in the meantime, to nobody: its permit is free at once and no controller ever has the stream.
   */
  lemma LateHandoffReturnsPermit(r: Relay, t: TaskId)
    requires Reachable(r) && Shape(r) && t < |r.tasks| && r.tasks[t].Confirming?
    ensures r.tasks[t].sender < |r.tasks|
    ensures var n, c := OnReceive(r, t, Ready(r.tasks[t].session)), r.tasks[t].sender;
      if r.tasks[c].Queueing? || r.tasks[c].Waiting? then
        n.free == r.free && n.tasks[t].HandedOff? && HasStream(n, c, t)
      else
        n.free == r.free + 1 && n.tasks[t] == Done && forall d: nat :: d < |n.tasks| ==> !HasStream(n, d, t)
  {
    hide Reachable;
    ReachableInv(r);
    var m, c := Ready(r.tasks[t].session), r.tasks[t].sender;
    assert TaskRefs(r, t) && ChanRefs(r, c);
    assert Next(r, Receive(t, m)) == OnReceive(r, t, m);
    InvStep(r, Receive(t, m));
    HandsOver(r, t);
    hide Inv;
    hide Refs;
    hide Linear;
    hide HasStream;
    var n := OnReceive(r, t, m);
    if !r.chans[c].listening {
      forall d: nat | d < |n.tasks|
        ensures !HasStream(n, d, t)
      {
        if HasStream(n, d, t) {
          StreamOwner(n, d, t);
        }
      }
    }
  }

  // ---------------------------------------------------------------- generations

  /** A map entry names the newest generation of its device, whose handler has not unregistered. */
  lemma EntriesAreNewest(r: Relay, device: DeviceId)
    requires Reachable(r) && device in r.devices
    ensures r.devices[device] < |r.gens| && r.gens[r.devices[device]].device == device
    ensures Newest(r, r.devices[device]) && Live(r, r.devices[device])
  {
    hide Reachable;
    ReachableInv(r);
    assert EntryOk(r, device);
    var g := r.devices[device];
    forall h: nat | g < h < |r.gens|
      ensures r.gens[h].device != device
    {
      assert Ordered(r, g, h);
    }
  }

  /** Conversely, the newest generation of a device has the entry from its registration until it unregisters. */
  lemma MapNamesNewestGeneration(r: Relay, g: GenId)
    requires Reachable(r) && g < |r.gens| && Newest(r, g)
    ensures var device := r.gens[g].device;
      && (device in r.devices <==> Live(r, g))
      && (device in r.devices ==> r.devices[device] == g)
  {
    hide Reachable;
    hide Lineage;
    hide Live;
    ReachableInv(r);
    hide Inv;
    if Live(r, g) {
      NewestIsMapped(r, g);
    }
    if r.gens[g].device in r.devices {
      EntriesAreNewest(r, r.gens[g].device);
    }
  }

  /**
   A registered handler whose generation is not the newest of its device has a later one as its successor,
   and has been signalled by it or is about to be.
   */
  lemma ReplacedGenerationIsStopped(r: Relay, g: GenId)
    requires Reachable(r) && g < |r.gens| && !Newest(r, g) && Live(r, g)
    ensures r.gens[g].successor.Some? && g < r.gens[g].successor.value < |r.gens|
    ensures r.gens[r.gens[g].successor.value].device == r.gens[g].device
    ensures !r.gens[g].armed || AboutToStop(r, r.gens[g].successor.value, g)
  {
    hide Reachable;
    ReachableInv(r);
    var h: nat :| g < h < |r.gens| && r.gens[h].device == r.gens[g].device;
    assert Ordered(r, g, h) && GenOk(r, g);
  }

  /**
   The entry of a device changes only when a new generation of it registers, or when the handler of the very
   generation it names unregisters: no exit evicts another generation, whatever the interleaving.
   */
  lemma ExitNeverEvictsAnother(r: Relay, a: Action, device: DeviceId)
    requires Reachable(r) && Shape(r) && Enabled(r, a)
    ensures SameEntry(r, Next(r, a), device) || (a.Lock? && MayChange(r, Next(r, a), a.t, device))
  {
    hide Reachable;
    ReachableInv(r);
    hide Linear;
    hide Refs;
    hide Conserved;
    hide LogsOk;
    hide Queues;
    match a
    case Lock(t) => hide Next; LockIsNext(r, t); assert HandlerOk(r, t); EntriesAfterLock(r, t, device);
    case _ => hide Lineage; EntriesStay(r, a, device);
  }

  // ---------------------------------------------------------------- pending maps

  /** Every entry belongs to a controller still inside its open wait or its cleanup, and maps are bounded. */
  lemma EntryBelongsToWaitingController(r: Relay, g: GenId, session: SessionId)
    requires Reachable(r) && g < |r.gens| && session in r.gens[g].pending
    ensures |r.gens[g].pending| <= MAX_PENDING_SESSIONS_PER_DEVICE
    ensures var c := r.gens[g].pending[session];
            && c < |r.tasks| && StageOf(r.tasks[c]) in {Opening, Cleanup}
            && r.tasks[c].session == session && r.tasks[c].gen == g && r.tasks[c].target == r.gens[g].device
  {
    hide Reachable;
    ReachableInv(r);
    assert QueueOk(r, g);
    var c := r.gens[g].pending[session];
    assert ChanRefs(r, c) && TaskRefs(r, c);
  }

  /** When no controller is waiting or cleaning up, nothing is pending anywhere, dead generations included. */
  lemma NoPendingLeak(r: Relay, g: GenId)
    requires Reachable(r) && g < |r.gens|
    requires forall c: nat :: c < |r.tasks| ==> StageOf(r.tasks[c]) !in {Opening, Cleanup}
    ensures r.gens[g].pending == map[]
  {
    if r.gens[g].pending != map[] {
      var session :| session in r.gens[g].pending;
      EntryBelongsToWaitingController(r, g, session);
    }
  }

  // ---------------------------------------------------------------- isolation of attached sessions

  /**
   Whatever step a control handler takes, up to and including its death, an attached session keeps its
   phase and the sender it holds, and the controller at the other end its channel.
   */
  lemma ControlNeverTouchesAttachedSessions(r: Relay, a: Action, k: TaskId)
    requires Reachable(r) && Shape(r) && Enabled(r, a) && !a.Arrive? && !a.Reload? && IsControl(r.tasks[a.t])
    requires k < |r.tasks| && (r.tasks[k].Accepting? || r.tasks[k].Confirming?)
    ensures var n := Next(r, a);
      && k < |n.tasks| && n.tasks[k] == r.tasks[k]
      && r.tasks[k].sender < |r.chans| == |n.chans| && n.chans[r.tasks[k].sender] == r.chans[r.tasks[k].sender]
  {
    hide Reachable;
    ReachableInv(r);
    HolderIsSpared(r, a, k);
    hide *;
    ControlSparesTask(r, a, k);
    ControlSparesSender(r, a, r.tasks[k].sender);
  }

  lemma HolderIsSpared(r: Relay, a: Action, k: TaskId)
    requires Inv(r) && Enabled(r, a) && k < |r.tasks| && (r.tasks[k].Accepting? || r.tasks[k].Confirming?)
    ensures Linear(r) && r.tasks[k].sender < |r.chans| && r.chans[r.tasks[k].sender].place.Held?
    ensures a.Resolve? ==> a.c != r.tasks[k].sender
  {
    HeldByHolder(r, k);
    assert a.Resolve? ==> a.c in Batch(r.tasks[a.t]);
  }

  // ---------------------------------------------------------------- order of Opens

  /** The Opens written on a generation are a FIFO prefix of what was queued, each registered before it was queued. */
  lemma OpensAreFifo(r: Relay, g: GenId)
    requires Reachable(r) && Shape(r) && g < |r.gens|
    ensures r.gens[g].handler < |r.tasks|
    ensures OpensIn(r.logs[r.gens[g].handler].said) <= Sessions(r.gens[g].requested)
    ensures forall i :: 0 <= i < |r.gens[g].requested| ==> RegisteredAs(r, g, r.gens[g].requested[i])
  {
    hide Reachable;
    ReachableInv(r);
    assert QueueOk(r, g) && SpokenOk(r, g);
    assert Sessions(r.gens[g].opens) <= Sessions(r.gens[g].requested);
  }
}
