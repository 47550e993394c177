/**
 The shared objects of src/server.rs as the handlers use them, one lock at a time: a device's pending map with
 its one-shot senders, its shutdown sender, and the map of devices. The step system of Relay works on their
 contents; here they are updated in place.
 */
module Registry {
  import opened Bytes
  import opened Messages
  import Relay

  datatype Verdict = Granted(stream: nat) | Denied(reason: string)

  /** A one-shot channel. Sending consumes the sender; the value is lost when the receiver is gone. */
  class OneShot {
    var used: bool
    var listening: bool
    var inbox: Option<Verdict>

    constructor ()
      ensures !used && listening && inbox == None
    {
      used, listening, inbox := false, true, None;
    }

    method Send(verdict: Verdict)
      requires !used
      modifies this
      ensures used && listening == old(listening)
      ensures inbox == if listening then Some(verdict) else old(inbox)
    {
      used := true;
      if listening {
        inbox := Some(verdict);
      }
    }
  }

  predicate Distinct(pending: map<SessionId, OneShot>) {
    forall s, t :: s in pending && t in pending && s != t ==> pending[s] != pending[t]
  }

  /** A sender that `fail_pending` has resolved. */
  predicate Resolved(sender: OneShot, reason: string, listened: bool, earlier: Option<Verdict>)
    reads sender
  {
    && sender.used && sender.listening == listened
    && sender.inbox == if listened then Some(Denied(reason)) else earlier
  }

  class Device {
    var pending: map<SessionId, OneShot>
    var armed: bool          // the shutdown sender has not been taken
    var signals: nat         // how often it has been used

    /** Every sender in the map is unused and there under one id only. */
    ghost predicate Valid()
      reads this, pending.Values
    {
      && |pending| <= Relay.MAX_PENDING_SESSIONS_PER_DEVICE
      && Distinct(pending) && (forall s :: s in pending ==> !pending[s].used)
      && signals == (if armed then 0 else 1)
    }

    constructor ()
      ensures Valid() && pending == map[] && armed
    {
      pending, armed, signals := map[], true, 0;
    }

    method RegisterPending(session: SessionId, sender: OneShot) returns (ok: bool)
      requires Valid() && !sender.used && sender !in pending.Values
      modifies this`pending
      ensures Valid()
      ensures ok <==> Relay.Registrable(old(pending), session)
      ensures pending == if ok then old(pending)[session := sender] else old(pending)
    {
      if |pending| >= Relay.MAX_PENDING_SESSIONS_PER_DEVICE || session in pending {
        return false;
      }
      pending := pending[session := sender];
      return true;
    }

    /** Whoever takes a sender is the only one to have it. */
    method TakePending(session: SessionId) returns (sender: Option<OneShot>)
      requires Valid()
      modifies this`pending
      ensures Valid() && pending == old(pending) - {session}
      ensures sender.Some? <==> session in old(pending)
      ensures sender.Some? ==> sender.value == old(pending)[session] && !sender.value.used && sender.value !in pending.Values
    {
      if session in pending {
        sender := Some(pending[session]);
        SmallerMap(pending, session);
        pending := pending - {session};
      } else {
        assert pending - {session} == pending;
        sender := None;
      }
    }

    /**
     Swaps the whole map out under the lock, then answers every sender that was in it, each exactly once. A
     sender taken before is not in the map, and so not touched.
     */
    method FailPending(reason: string)
      requires Valid()
      modifies this`pending, pending.Values
      ensures Valid() && pending == map[]
      ensures forall s :: s in old(pending) ==>
        Resolved(old(pending)[s], reason, old(pending[s].listening), old(pending[s].inbox))
    {
      var rest := pending;
      ghost var all := pending;
      pending := map[];
      while rest != map[]
        invariant pending == map[]
        invariant rest.Keys <= all.Keys && (forall s :: s in rest ==> rest[s] == all[s])
        invariant forall s :: s in rest ==>
          !all[s].used && all[s].listening == old(all[s].listening) && all[s].inbox == old(all[s].inbox)
        invariant forall s :: s in all && s !in rest ==>
          Resolved(all[s], reason, old(all[s].listening), old(all[s].inbox))
        decreases |rest|
      {
        var session :| session in rest;
        rest[session].Send(Denied(reason));
        SmallerMap(rest, session);
        rest := rest - {session};
      }
    }

    /** `stop_device`: the shutdown sender fires at most once in the life of a generation. */
    method Stop()
      requires Valid()
      modifies this`armed, this`signals
      ensures Valid() && signals == 1 && signals == old(signals) + (if old(armed) then 1 else 0)
    {
      if armed {
        armed, signals := false, signals + 1;
      }
    }
  }

  lemma SmallerMap<T>(m: map<SessionId, T>, session: SessionId)
    requires session in m
    ensures |m - {session}| == |m| - 1
  {
    var left := m - {session};
    assert m.Keys == left.Keys + {session};
    assert |left.Keys| == |left| && |m.Keys| == |m|;
  }

  class Devices {
    var current: map<DeviceId, Device>

    constructor ()
      ensures current == map[]
    {
      current := map[];
    }

    /** `devices.insert`: the newcomer is current at once; whoever was is handed back to be stopped. */
    method Insert(id: DeviceId, device: Device) returns (previous: Option<Device>)
      modifies this
      ensures current == old(current)[id := device]
      ensures previous == if id in old(current) then Some(old(current)[id]) else None
    {
      previous := if id in current then Some(current[id]) else None;
      current := current[id := device];
    }

    /** `unregister`: only the very object that is still current is removed. */
    method Unregister(id: DeviceId, device: Device)
      modifies this
      ensures current == if id in old(current) && old(current)[id] == device then old(current) - {id} else old(current)
    {
      if id in current && current[id] == device {
        current := current - {id};
      }
    }

    /** The critical sections of two agents of one device: the second replaces the first, whose exit spares it. */
    method Replace(id: DeviceId, older: Device, newer: Device, reason: string)
      requires older.Valid() && newer.Valid() && older != newer && id in current && current[id] == older
      requires older.pending.Values !! newer.pending.Values
      modifies this, older, older.pending.Values
      ensures older.Valid() && older.signals == 1 && older.pending == map[]
      ensures current == old(current)[id := newer] && newer.Valid()
      ensures forall s :: s in old(older.pending) ==>
        Resolved(old(older.pending)[s], reason, old(older.pending[s].listening), old(older.pending[s].inbox))
    {
      var previous := Insert(id, newer);
      previous.value.Stop();
      older.FailPending(reason);
      Unregister(id, older);
    }
  }
}
