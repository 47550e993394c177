/**
 Generations of one device's agent: the map always names the most recently registered one that has not
 removed itself, and every older live one has been told to stop or is about to be.
 */
module RelayGenerations {
  import opened Bytes
  import opened Messages
  import Auth
  import opened Relay
  import opened RelayFrames

  /** A task's part in a generation: `registered` until it has passed its `unregister`. */
  datatype Charge = NoCharge | Charge(device: DeviceId, gen: GenId, registered: bool, stopping: Option<GenId>)

  function ChargeOf(task: Task): Charge {
    match task
    case Replacing(device, gen, previous, _) => Charge(device, gen, true, Some(previous))
    case Serving(device, gen, _) => Charge(device, gen, true, None)
    case Draining(device, gen) => Charge(device, gen, true, None)
    case Failing(device, gen, _) => Charge(device, gen, true, None)
    case Unregistering(device, gen) => Charge(device, gen, true, None)
    case Leaving(device, gen) => Charge(device, gen, false, None)
    case _ => NoCharge
  }

  /** The handler of generation `g` has not unregistered yet. */
  predicate Live(r: Relay, g: GenId)
    requires g < |r.gens|
  {
    var handler := r.gens[g].handler;
    handler < |r.tasks| && ChargeOf(r.tasks[handler]).Charge?
    && ChargeOf(r.tasks[handler]).gen == g && ChargeOf(r.tasks[handler]).registered
  }

  predicate HandlerOk(r: Relay, t: TaskId)
    requires t < |r.tasks|
  {
    var charge := ChargeOf(r.tasks[t]);
    charge.Charge? ==>
      && charge.gen < |r.gens| && r.gens[charge.gen].handler == t && r.gens[charge.gen].device == charge.device
      && r.gens[charge.gen].accepting
      && (charge.stopping.Some? ==>
            charge.stopping.value < charge.gen && r.gens[charge.stopping.value].successor == Some(charge.gen))
  }

  /** The handler of `h` still has to stop `g`. */
  predicate AboutToStop(r: Relay, h: GenId, g: GenId)
    requires h < |r.gens|
  {
    r.gens[h].handler < |r.tasks| && ChargeOf(r.tasks[r.gens[h].handler]).Charge?
    && ChargeOf(r.tasks[r.gens[h].handler]).gen == h
    && ChargeOf(r.tasks[r.gens[h].handler]).stopping == Some(g)
  }

  predicate GenOk(r: Relay, g: GenId)
    requires g < |r.gens|
  {
    var gen := r.gens[g];
    && gen.handler < |r.tasks|
    && (gen.accepting ==> ChargeOf(r.tasks[gen.handler]).Charge? && ChargeOf(r.tasks[gen.handler]).gen == g)
    && (gen.successor == None ==> gen.armed)
    && (gen.successor == None && Live(r, g) ==> gen.device in r.devices && r.devices[gen.device] == g)
    && (gen.successor.Some? ==>
          && g < gen.successor.value < |r.gens| && r.gens[gen.successor.value].device == gen.device
          && (gen.armed ==> AboutToStop(r, gen.successor.value, g)))
  }

  predicate EntryOk(r: Relay, d: DeviceId)
    requires d in r.devices
  {
    r.devices[d] < |r.gens| && r.gens[r.devices[d]].device == d && r.gens[r.devices[d]].successor == None
    && Live(r, r.devices[d])
  }

  /** An older generation of the same device has been replaced, or has unregistered. */
  predicate Ordered(r: Relay, g: GenId, h: GenId)
    requires g < h < |r.gens|
  {
    r.gens[g].device == r.gens[h].device && Live(r, g) ==> r.gens[g].successor.Some?
  }

  ghost predicate Lineage(r: Relay) {
    && (forall t: nat :: t < |r.tasks| ==> HandlerOk(r, t))
    && (forall g: nat :: g < |r.gens| ==> GenOk(r, g))
    && (forall d :: d in r.devices ==> EntryOk(r, d))
    && (forall g: nat, h: nat :: g < h < |r.gens| ==> Ordered(r, g, h))
  }

  // ---------------------------------------------------------------- steps

  predicate SameLineage(a: Generation, b: Generation) {
    && a.device == b.device && a.handler == b.handler && a.accepting == b.accepting
    && a.armed == b.armed && a.successor == b.successor
  }

  /** Nothing about generations changes. */
  lemma LineageQuiet(r: Relay, n: Relay)
    requires Lineage(r) && |r.tasks| <= |n.tasks| && |n.gens| == |r.gens| && n.devices == r.devices
    requires forall t: nat :: t < |r.tasks| ==> ChargeOf(n.tasks[t]) == ChargeOf(r.tasks[t])
    requires forall t: nat :: |r.tasks| <= t < |n.tasks| ==> ChargeOf(n.tasks[t]) == NoCharge
    requires forall g: nat :: g < |r.gens| ==> SameLineage(n.gens[g], r.gens[g])
    ensures Lineage(n)
  {
    forall t: nat | t < |n.tasks|
      ensures HandlerOk(n, t)
    {
      if t < |r.tasks| {
        assert HandlerOk(r, t);
      }
    }
    forall g: nat | g < |n.gens|
      ensures GenOk(n, g)
    {
      assert GenOk(r, g);
    }
    forall d | d in n.devices
      ensures EntryOk(n, d)
    {
      assert EntryOk(r, d);
      assert GenOk(r, r.devices[d]);
    }
    forall g: nat, h: nat | g < h < |n.gens|
      ensures Ordered(n, g, h)
    {
      assert Ordered(r, g, h) && GenOk(r, g);
    }
  }

  /** Registering does not change who is live, and hands the newest generation to its handler. */
  lemma RegisterLive(r: Relay, t: TaskId, g: GenId)
    requires Lineage(r) && CanLock(r, t) && r.tasks[t].Registering?
    requires g <= |r.gens|
    ensures var n := Register(r, t);
            |n.gens| == |r.gens| + 1 && (g < |r.gens| ==> (Live(n, g) <==> Live(r, g))) && Live(n, |r.gens|)
  {
    if g < |r.gens| {
      assert GenOk(r, g);
    }
  }

  lemma RegisterHandlers(r: Relay, t: TaskId, u: TaskId)
    requires Lineage(r) && CanLock(r, t) && r.tasks[t].Registering?
    requires u < |r.tasks|
    ensures var n := Register(r, t); |n.tasks| == |r.tasks| && HandlerOk(n, u)
  {
    var device := r.tasks[t].device;
    if device in r.devices {
      assert EntryOk(r, device);
    }
    assert HandlerOk(r, u);
  }

  lemma RegisterGens(r: Relay, t: TaskId, g: GenId)
    requires Lineage(r) && CanLock(r, t) && r.tasks[t].Registering?
    requires g < |r.gens|
    ensures GenOk(Register(r, t), g)
  {
    var device := r.tasks[t].device;
    RegisterLive(r, t, g);
    if device in r.devices {
      assert EntryOk(r, device);
    }
    assert GenOk(r, g);
  }

  lemma RegisterEntries(r: Relay, t: TaskId, d: DeviceId)
    requires Lineage(r) && CanLock(r, t) && r.tasks[t].Registering?
    requires d in r.devices || d == r.tasks[t].device
    ensures var n := Register(r, t); d in n.devices && EntryOk(n, d)
  {
    var device := r.tasks[t].device;
    if d != device {
      assert EntryOk(r, d);
      RegisterLive(r, t, r.devices[d]);
      if device in r.devices {
        assert EntryOk(r, device);
      }
    }
  }

  lemma LineageRegister(r: Relay, t: TaskId)
    requires Lineage(r) && CanLock(r, t) && r.tasks[t].Registering?
    ensures Lineage(Register(r, t))
  {
    hide HandlerOk;
    hide EntryOk;
    hide Live;
    var n := Register(r, t);
    forall u: nat | u < |n.tasks|
      ensures HandlerOk(n, u)
    {
      RegisterHandlers(r, t, u);
    }
    forall g: nat | g < |n.gens|
      ensures GenOk(n, g)
    {
      if g < |r.gens| {
        RegisterGens(r, t, g);
      }
    }
    forall d | d in n.devices
      ensures EntryOk(n, d)
    {
      RegisterEntries(r, t, d);
    }
    forall g: nat, h: nat | g < h < |n.gens|
      ensures Ordered(n, g, h)
    {
      RegisterLive(r, t, g);
      assert GenOk(r, g);
      if h < |r.gens| {
        assert Ordered(r, g, h);
      }
    }
  }

  lemma LineageReplace(r: Relay, t: TaskId)
    requires Shape(r) && Lineage(r) && CanLock(r, t) && r.tasks[t].Replacing?
    ensures Lineage(Replace(r, t))
  {
    var n := Replace(r, t);
    assert HandlerOk(r, t);
    forall u: nat | u < |n.tasks|
      ensures HandlerOk(n, u)
    {
      assert HandlerOk(r, u);
    }
    forall g: nat | g < |n.gens|
      ensures GenOk(n, g)
    {
      assert GenOk(r, g);
      assert Live(n, g) <==> Live(r, g);
    }
    forall d | d in n.devices
      ensures EntryOk(n, d)
    {
      assert EntryOk(r, d);
      assert GenOk(r, r.devices[d]);
    }
    forall g: nat, h: nat | g < h < |n.gens|
      ensures Ordered(n, g, h)
    {
      assert Ordered(r, g, h) && GenOk(r, g);
      assert Live(n, g) <==> Live(r, g);
    }
  }

  /** A handler's exit removes the entry only if it is its own. */
  lemma LineageUnregister(r: Relay, t: TaskId)
    requires Shape(r) && Lineage(r) && CanLock(r, t) && r.tasks[t].Unregistering?
    ensures Lineage(Unregister(r, t))
  {
    var n := Unregister(r, t);
    assert HandlerOk(r, t);
    forall u: nat | u < |n.tasks|
      ensures HandlerOk(n, u)
    {
      assert HandlerOk(r, u);
    }
    forall g: nat | g < |n.gens|
      ensures GenOk(n, g)
    {
      assert GenOk(r, g);
      assert g != r.tasks[t].gen ==> (Live(n, g) <==> Live(r, g));
    }
    forall d | d in n.devices
      ensures EntryOk(n, d)
    {
      assert EntryOk(r, d);
      assert GenOk(r, r.devices[d]);
    }
    forall g: nat, h: nat | g < h < |n.gens|
      ensures Ordered(n, g, h)
    {
      assert Ordered(r, g, h) && GenOk(r, g);
    }
  }

  lemma LineageLeave(r: Relay, t: TaskId)
    requires Shape(r) && Lineage(r) && CanFinish(r, t) && r.tasks[t].Leaving?
    ensures Lineage(OnFinish(r, t))
  {
    var n := OnFinish(r, t);
    assert HandlerOk(r, t);
    forall u: nat | u < |n.tasks|
      ensures HandlerOk(n, u)
    {
      assert HandlerOk(r, u);
    }
    forall g: nat | g < |n.gens|
      ensures GenOk(n, g)
    {
      assert GenOk(r, g);
      assert Live(n, g) <==> Live(r, g);
    }
    forall d | d in n.devices
      ensures EntryOk(n, d)
    {
      assert EntryOk(r, d);
      assert GenOk(r, r.devices[d]);
    }
    forall g: nat, h: nat | g < h < |n.gens|
      ensures Ordered(n, g, h)
    {
      assert Ordered(r, g, h) && GenOk(r, g);
    }
  }

  lemma LineageStep(r: Relay, a: Action)
    requires Shape(r) && Lineage(r) && Enabled(r, a)
    ensures Lineage(Next(r, a))
  {
    hide Lineage;
    match a
    case Arrive => LineageQuiet(r, OnArrive(r));
    case Reload(auth) => LineageQuiet(r, r.(auth := auth));
    case Receive(t, m) => LineageReceive(r, t, m);
    case Write(t) => LineageWrite(r, t);
    case Fail(t) => LineageFail(r, t);
    case Lock(t) => LineageLock(r, t);
    case Enqueue(t) => LineageEnqueue(r, t);
    case Pop(t) => LineageQuiet(r, OnPop(r, t));
    case Lose(t) => LineageQuiet(r, OnLose(r, t));
    case Stop(t) => LineageQuiet(r, OnStop(r, t));
    case Resolve(t, c) => LineageQuiet(r, OnResolve(r, t, c));
    case Collect(t) => LineageCollect(r, t);
    case Expire(t) => LineageQuiet(r, OnExpire(r, t));
    case Finish(t) => LineageFinish(r, t);
  }

  lemma LineageReceive(r: Relay, t: TaskId, m: Message)
    requires Shape(r) && Lineage(r) && CanReceive(r, t)
    ensures Lineage(OnReceive(r, t, m))
  {
    hide Lineage;
    if r.tasks[t].Confirming? {
      LineageVerdict(r, t, m);
    } else {
      hide Auth.Admits;
      LineageQuiet(r, OnReceive(r, t, m));
    }
  }

  lemma LineageVerdict(r: Relay, t: TaskId, m: Message)
    requires Shape(r) && Lineage(r) && CanReceive(r, t) && r.tasks[t].Confirming?
    ensures Lineage(OnReceive(r, t, m))
  {
    hide Lineage;
    LineageQuiet(r, OnReceive(r, t, m));
  }

  lemma LineageWrite(r: Relay, t: TaskId)
    requires Shape(r) && Lineage(r) && CanWrite(r, t)
    ensures Lineage(OnWrite(r, t))
  {
    hide Lineage;
    LineageQuiet(r, OnWrite(r, t));
  }

  lemma LineageFail(r: Relay, t: TaskId)
    requires Shape(r) && Lineage(r) && CanFail(r, t)
    ensures Lineage(OnFail(r, t))
  {
    hide Lineage;
    LineageQuiet(r, OnFail(r, t));
  }

  lemma LineageEnqueue(r: Relay, t: TaskId)
    requires Shape(r) && Lineage(r) && CanEnqueue(r, t)
    ensures Lineage(OnEnqueue(r, t))
  {
    hide Lineage;
    LineageQuiet(r, OnEnqueue(r, t));
  }

  lemma LineageCollect(r: Relay, t: TaskId)
    requires Shape(r) && Lineage(r) && CanCollect(r, t)
    ensures Lineage(OnCollect(r, t))
  {
    hide Lineage;
    LineageQuiet(r, OnCollect(r, t));
  }

  lemma LineageFinish(r: Relay, t: TaskId)
    requires Shape(r) && Lineage(r) && CanFinish(r, t)
    ensures Lineage(OnFinish(r, t))
  {
    hide Lineage;
    if r.tasks[t].Leaving? {
      LineageLeave(r, t);
    } else {
      LineageQuiet(r, OnFinish(r, t));
    }
  }

  lemma LineageLock(r: Relay, t: TaskId)
    requires Shape(r) && Lineage(r) && CanLock(r, t)
    ensures Lineage(OnLock(r, t))
  {
    hide Lineage;
    match r.tasks[t]
    case Registering(_, _) => LineageRegister(r, t);
    case Replacing(_, _, _, _) => LineageReplace(r, t);
    case Draining(_, _) => LineageDrain(r, t);
    case Unregistering(_, _) => LineageUnregister(r, t);
    case Locating(_, _) => LineageQuiet(r, Locate(r, t));
    case Claiming(_, _, _) => LineageClaim(r, t);
    case Counting => LineageQuiet(r, Count(r, t));
    case Finding(_, _) => LineageQuiet(r, Find(r, t));
    case Enrolling(_, _, _) => LineageEnrol(r, t);
    case Cleaning(_, _, _, _, _) => LineageCleanUp(r, t);
  }

  lemma LineageDrain(r: Relay, t: TaskId)
    requires Shape(r) && Lineage(r) && CanLock(r, t) && r.tasks[t].Draining?
    ensures Lineage(Drain(r, t))
  {
    hide Lineage;
    LineageQuiet(r, Drain(r, t));
  }

  lemma LineageClaim(r: Relay, t: TaskId)
    requires Shape(r) && Lineage(r) && CanLock(r, t) && r.tasks[t].Claiming?
    ensures Lineage(Claim(r, t))
  {
    hide Lineage;
    LineageQuiet(r, Claim(r, t));
  }

  lemma LineageEnrol(r: Relay, t: TaskId)
    requires Shape(r) && Lineage(r) && CanLock(r, t) && r.tasks[t].Enrolling?
    ensures Lineage(Enrol(r, t))
  {
    hide Lineage;
    LineageQuiet(r, Enrol(r, t));
  }

  lemma LineageCleanUp(r: Relay, t: TaskId)
    requires Shape(r) && Lineage(r) && CanLock(r, t) && r.tasks[t].Cleaning?
    ensures Lineage(CleanUp(r, t))
  {
    hide Lineage;
    LineageQuiet(r, CleanUp(r, t));
  }

  // ---------------------------------------------------------------- entries of the map

  /** No later generation of the same device has been registered. */
  ghost predicate Newest(r: Relay, g: GenId)
    requires g < |r.gens|
  {
    forall h: nat :: g < h < |r.gens| ==> r.gens[h].device != r.gens[g].device
  }

  lemma NewestIsMapped(r: Relay, g: GenId)
    requires Lineage(r) && g < |r.gens| && Newest(r, g) && Live(r, g)
    ensures r.gens[g].device in r.devices && r.devices[r.gens[g].device] == g
  {
    assert GenOk(r, g);
  }

  /** What may become of the map entry of `device` when task `t` takes the step from `r` to `n`. */
  predicate MayChange(r: Relay, n: Relay, t: TaskId, device: DeviceId) {
    t < |r.tasks| && match r.tasks[t]
      case Registering(d, _) =>
        d == device && device in n.devices && n.devices[device] == |r.gens| < |n.gens| && n.gens[|r.gens|].handler == t
      case Unregistering(d, gen) =>
        d == device && device !in n.devices && device in r.devices && r.devices[device] == gen
        && gen < |r.gens| && r.gens[gen].handler == t
      case _ => false
  }

  lemma EntriesAfterLock(r: Relay, t: TaskId, device: DeviceId)
    requires Shape(r) && CanLock(r, t) && HandlerOk(r, t)
    ensures SameEntry(r, OnLock(r, t), device) || MayChange(r, OnLock(r, t), t, device)
  {
    match r.tasks[t]
    case Registering(_, _) =>
    case Unregistering(_, _) =>
    case Cleaning(_, _, _, _, _) =>
    case _ =>
  }
}
