/** Device lists: every list the relay writes is the registry of one moment, no device more and none less. */
module RelayListing {
  import opened Messages
  import Auth
  import opened Relay
  import opened RelayFrames
  import opened RelayGenerations
  import opened RelayTheorems

  /** The newest agent of `device` has registered and not unregistered. */
  ghost predicate Registered(r: Relay, device: DeviceId) {
    exists g: nat :: g < |r.gens| && r.gens[g].device == device && Newest(r, g) && Live(r, g)
  }

  /** The map has an entry for exactly the registered devices. */
  lemma MapIsRegistry(r: Relay, device: DeviceId)
    requires Reachable(r)
    ensures device in r.devices <==> Registered(r, device)
  {
    if device in r.devices {
      EntriesAreNewest(r, device);
    }
    hide Reachable;
    hide Live;
    if g: nat :| g < |r.gens| && r.gens[g].device == device && Newest(r, g) && Live(r, g) {
      MapNamesNewestGeneration(r, g);
    }
  }

  /** The section under the lock takes the list of exactly the registered devices. */
  lemma CountTakesTheRegistry(r: Relay, t: TaskId, device: DeviceId)
    requires Reachable(r) && CanLock(r, t) && r.tasks[t].Counting? && Shape(r)
    ensures var n := OnLock(r, t);
      && |n.tasks| == |r.tasks| && n.tasks[t].Listing? && (device in n.tasks[t].devices <==> Registered(r, device))
  {
    MapIsRegistry(r, device);
    hide Reachable;
    hide Registered;
    assert OnLock(r, t) == Count(r, t);
  }

  /** The sections that look a device up go on exactly when it is registered, and then with its newest agent. */
  lemma LookupsAskTheRegistry(r: Relay, t: TaskId)
    requires Reachable(r) && CanLock(r, t) && (r.tasks[t].Finding? || r.tasks[t].Locating?) && Shape(r)
    ensures var n := OnLock(r, t);
      && |n.tasks| == |r.tasks|
      && var task, next := r.tasks[t], n.tasks[t];
         var device := if task.Finding? then task.target else task.device;
         if Registered(r, device) then
           && (if task.Finding? then next.Enrolling? && next.target == device else next.Claiming? && next.device == device)
           && next.session == task.session && next.gen < |r.gens| && r.gens[next.gen].device == device
           && Newest(r, next.gen) && Live(r, next.gen)
         else
           (next.Replying? || next.Dismissing?) && next.session == task.session
           && Reply(next) == Failed(task.session, "device is offline: " + device)
  {
    var device := if r.tasks[t].Finding? then r.tasks[t].target else r.tasks[t].device;
    MapIsRegistry(r, device);
    if device in r.devices {
      EntriesAreNewest(r, device);
    }
    hide Reachable;
    hide Registered;
    hide Live;
    hide Newest;
    assert OnLock(r, t) == if r.tasks[t].Finding? then Find(r, t) else Locate(r, t);
  }

  lemma NoListFromReceive(r: Relay, t: TaskId, m: Message)
    requires Shape(r) && CanReceive(r, t)
    ensures var n := OnReceive(r, t, m);
      && |n.tasks| == |r.tasks| && !n.tasks[t].Listing? && |n.logs| == |r.logs|
      && (n.logs[t].said == r.logs[t].said || n.logs[t].said == r.logs[t].said + [Pong])
  {
    hide Auth.Admits;
  }

  lemma NoListFromWrite(r: Relay, t: TaskId)
    requires Shape(r) && CanWrite(r, t)
    ensures var n := OnWrite(r, t); |n.tasks| == |r.tasks| && !n.tasks[t].Listing?
    ensures Reply(r.tasks[t]).DeviceList? ==> r.tasks[t].Listing? && Reply(r.tasks[t]) == DeviceList(r.tasks[t].devices)
  {
  }

  lemma NoListFromFail(r: Relay, t: TaskId)
    requires Shape(r) && CanFail(r, t)
    ensures var n := OnFail(r, t); |n.tasks| == |r.tasks| && !n.tasks[t].Listing?
  {
  }

  lemma ListFromLock(r: Relay, t: TaskId)
    requires Shape(r) && CanLock(r, t)
    ensures var n := OnLock(r, t); |n.tasks| == |r.tasks| && (n.tasks[t].Listing? ==> r.tasks[t].Counting?)
  {
  }

  lemma NoListFromTheRest(r: Relay, a: Action)
    requires Shape(r) && Enabled(r, a) && !a.Arrive? && !a.Reload? && !a.Receive? && !a.Write? && !a.Fail? && !a.Lock?
    ensures |Next(r, a).tasks| == |r.tasks| && !Next(r, a).tasks[a.t].Listing?
  {
  }

  /** A phase has a list only from that section on. */
  lemma ListPhase(r: Relay, a: Action, t: TaskId)
    requires Shape(r) && Enabled(r, a) && t < |r.tasks| && t < |Next(r, a).tasks| && Next(r, a).tasks[t].Listing?
    ensures r.tasks[t] == Next(r, a).tasks[t] || (a == Lock(t) && r.tasks[t].Counting?)
  {
    if !a.Arrive? && !a.Reload? {
      OnlyStep(r, a);
      match a
      case Receive(u, m) => hide OnReceive; NoListFromReceive(r, u, m);
      case Write(u) => hide OnWrite; NoListFromWrite(r, u);
      case Fail(u) => hide OnFail; NoListFromFail(r, u);
      case Lock(u) => hide OnLock; ListFromLock(r, u);
      case _ => hide Next; NoListFromTheRest(r, a);
    }
  }

  lemma NewcomersList(r: Relay, a: Action, t: TaskId)
    requires Shape(r) && Enabled(r, a) && |r.tasks| <= t < |Next(r, a).tasks|
    ensures !Next(r, a).tasks[t].Listing?
  {
    if !a.Arrive? && !a.Reload? {
      hide Next;
      OnlyStep(r, a);
    }
  }

  /** And writes that list and no other. */
  lemma ListWritten(r: Relay, a: Action, t: TaskId, m: Message)
    requires Shape(r) && Enabled(r, a) && t < |r.tasks| && t < |Next(r, a).logs| && m.DeviceList?
    requires m in Next(r, a).logs[t].said
    ensures |r.logs| == |r.tasks|
    ensures m in r.logs[t].said || (a == Write(t) && r.tasks[t].Listing? && m == DeviceList(r.tasks[t].devices))
  {
    if !a.Arrive? && !a.Reload? && !Silent(a) {
      match a
      case Receive(u, k) => OnlyReceive(r, u, k); NoListFromReceive(r, u, k); hide OnReceive;
      case Write(u) => OnlyWrite(r, u); NoListFromWrite(r, u); hide OnWrite;
      case Pop(u) =>
    } else if !a.Arrive? && !a.Reload? {
      hide Next;
      OnlyStep(r, a);
    }
  }

  // ---------------------------------------------------------------- over a run

  /** `devices` is the registry of state `i`, at which task `t`, asked for the list, took it. */
  ghost predicate TakenAt(states: seq<Relay>, i: nat, t: TaskId, devices: set<DeviceId>) {
    && i < |states| && t < |states[i].tasks| && states[i].tasks[t].Counting?
    && forall d :: d in devices <==> Registered(states[i], d)
  }

  lemma TakenNow(states: seq<Relay>, actions: seq<Action>, i: nat, t: TaskId)
    requires Run(states, actions) && i < |actions| && |states| == |actions| + 1
    requires t < |states[i].tasks| && states[i].tasks[t].Counting? && actions[i] == Lock(t)
    requires t < |states[i + 1].tasks| && states[i + 1].tasks[t].Listing?
    ensures TakenAt(states, i, t, states[i + 1].tasks[t].devices)
  {
    assert Reachable(states[i]);
    hide Reachable;
    RunStep(states, actions, i);
    hide Inv;
    hide Run;
    hide Registered;
    forall d
      ensures d in states[i + 1].tasks[t].devices <==> Registered(states[i], d)
    {
      CountTakesTheRegistry(states[i], t, d);
    }
  }

  lemma StartsEmpty(states: seq<Relay>, actions: seq<Action>)
    requires Run(states, actions)
    ensures |states| > 0 && states[0].tasks == [] && states[0].logs == []
  {
  }

  lemma {:induction false} ListsAreTaken(states: seq<Relay>, actions: seq<Action>, j: nat, t: TaskId) returns (i: nat)
    requires Run(states, actions) && j < |states| == |actions| + 1
    requires t < |states[j].tasks| && states[j].tasks[t].Listing?
    ensures i < j && TakenAt(states, i, t, states[j].tasks[t].devices)
  {
    hide *;
    StartsEmpty(states, actions);
    if j > 0 {
      RunStep(states, actions, j - 1);
      if t < |states[j - 1].tasks| {
        ListPhase(states[j - 1], actions[j - 1], t);
        if states[j - 1].tasks[t] == states[j].tasks[t] {
          i := ListsAreTaken(states, actions, j - 1, t);
        } else {
          i := j - 1;
          TakenNow(states, actions, i, t);
        }
      } else {
        NewcomersList(states[j - 1], actions[j - 1], t);
      }
    }
  }

  /** Every device list that a controller is ever sent is the registry at the moment its handler looked. */
  lemma {:induction false} ListsAreTheRegistry(states: seq<Relay>, actions: seq<Action>, j: nat, t: TaskId, m: Message)
      returns (i: nat)
    requires Run(states, actions) && j < |states| == |actions| + 1
    requires t < |states[j].tasks| && t < |states[j].logs| && m in states[j].logs[t].said && m.DeviceList?
    ensures i < j && TakenAt(states, i, t, m.devices)
  {
    hide *;
    StartsEmpty(states, actions);
    if j > 0 {
      RunStep(states, actions, j - 1);
      if t < |states[j - 1].tasks| {
        ListWritten(states[j - 1], actions[j - 1], t, m);
        if m in states[j - 1].logs[t].said {
          i := ListsAreTheRegistry(states, actions, j - 1, t, m);
        } else {
          i := ListsAreTaken(states, actions, j - 1, t);
        }
      } else {
        NothingSaidYet(states[j - 1], actions[j - 1], t);
      }
    }
  }

  /** A connection starts with nothing said. */
  lemma NothingSaidYet(r: Relay, a: Action, t: TaskId)
    requires Shape(r) && Enabled(r, a) && |r.tasks| <= t < |Next(r, a).tasks|
    ensures t < |Next(r, a).logs| && Next(r, a).logs[t].said == []
  {
    if !a.Arrive? && !a.Reload? {
      hide Next;
      OnlyStep(r, a);
    }
  }
}
