/**
 Progress: a connection handler that waits for no peer gets by its own steps, and within a fixed number of
 them, to where it does: a frame to read, a frame to write, a bridge, or the end. What it may wait for in
 between is a mutex, its own deadline, or nothing.
 */
module RelayProgress {
  import opened Relay
  import opened RelayFrames
  import opened RelaySenders
  import opened RelaySessions
  import opened RelayGenerations
  import opened RelayQueues
  import opened RelayRanks
  import opened RelayTheorems

  /** Only the controller's open wait needs its deadline; nowhere else does a step wait for anything but a mutex. */
  lemma OwnStepIsReady(r: Relay, t: TaskId) returns (a: Action)
    requires Reachable(r) && Shape(r) && t < |r.tasks| && !UpToPeer(r.tasks[t])
    ensures Own(a, t) && Enabled(r, a) && (a.Lock? || a.Resolve? || a.Finish? || a.Expire?)
    ensures a.Expire? <==> r.tasks[t].Queueing? || r.tasks[t].Waiting?
  {
    hide Reachable;
    ReachableInv(r);
    var task := r.tasks[t];
    if Locks(task) {
      LockAlwaysOpens(r, t);
      a := Lock(t);
    } else if task.Queueing? || task.Waiting? {
      a := Expire(t);
    } else if task.Failing? && task.batch != {} {
      var c :| c in task.batch;
      assert c in Batch(r.tasks[t]);
      a := Resolve(t, c);
    } else {
      assert TaskRefs(r, t) && HandlerOk(r, t);
      a := Finish(t);
    }
  }

  /**
   What others have left for a handler it can take at once: an answer, a queued request, the shutdown signal, room
   in a queue; and a handler up to its peer is ready for whatever the peer does.
   */
  lemma WhatIsLeftCanBeTaken(r: Relay, t: TaskId)
    requires Reachable(r) && Shape(r) && t < |r.tasks|
    ensures r.tasks[t].Waiting? && r.chans[t].place == Spent ==> Enabled(r, Collect(t))
    ensures r.tasks[t].Serving? ==>
      && r.tasks[t].gen < |r.gens|
      && (r.gens[r.tasks[t].gen].queue != [] ==> Enabled(r, Pop(t)) && Enabled(r, Lose(t)))
      && (!r.gens[r.tasks[t].gen].armed ==> Enabled(r, Stop(t)))
    ensures r.tasks[t].Queueing? ==>
      && r.tasks[t].gen < |r.gens|
      && (!r.gens[r.tasks[t].gen].accepting || |r.gens[r.tasks[t].gen].queue| < MAX_PENDING_SESSIONS_PER_DEVICE
          ==> Enabled(r, Enqueue(t)))
    ensures Reads(r.tasks[t]) ==> forall m :: Enabled(r, Receive(t, m))
    ensures Writes(r.tasks[t]) ==> Enabled(r, Write(t))
    ensures Reads(r.tasks[t]) || Writes(r.tasks[t]) ==> Enabled(r, Fail(t))
    ensures r.tasks[t].Bridging? ==> Enabled(r, Finish(t))
  {
    if r.tasks[t].Waiting? {
      UsedMeansAnswered(r, t);
    }
    if r.tasks[t].Serving? || r.tasks[t].Queueing? {
      GenerationIsThere(r, t);
    }
    hide Reachable;
    hide GensKnown;
  }

  lemma GenerationIsThere(r: Relay, t: TaskId)
    requires Reachable(r) && Shape(r) && t < |r.tasks| && (r.tasks[t].Serving? || r.tasks[t].Queueing?)
    ensures r.tasks[t].gen < |r.gens|
  {
    hide Reachable;
    ReachableInv(r);
    assert TaskRefs(r, t) && HandlerOk(r, t);
  }

  /** Every step of its own takes such a handler nearer. */
  lemma OwnStepsDescend(r: Relay, a: Action)
    requires Reachable(r) && Shape(r) && Enabled(r, a) && !a.Arrive? && !a.Reload? && !UpToPeer(r.tasks[a.t])
    ensures |Next(r, a).tasks| == |r.tasks| && Rank(Next(r, a).tasks[a.t]) < Rank(r.tasks[a.t])
  {
    hide Reachable;
    ReachableInv(r);
    PendingBounded(r);
    hide *;
    Descend(r, a);
  }

  // ---------------------------------------------------------------- over a run

  function OwnSteps(actions: seq<Action>, t: TaskId): nat {
    if actions == [] then 0
    else OwnSteps(actions[..|actions| - 1], t) + (if Own(actions[|actions| - 1], t) then 1 else 0)
  }

  /** A handler is never further than `FAR` from depending on its peer. */
  lemma {:induction false} RankIsBounded(states: seq<Relay>, actions: seq<Action>, i: nat, t: TaskId)
    requires Run(states, actions) && i < |states| && t < |states[i].tasks|
    ensures Rank(states[i].tasks[t]) <= FAR
  {
    hide *;
    NoTasksAtFirst(states, actions);
    if i > 0 {
      var r, a := states[i - 1], actions[i - 1];
      RunStep(states, actions, i - 1);
      StepBounded(r);
      if t < |r.tasks| {
        RankIsBounded(states, actions, i - 1, t);
      }
      RankLater(r, a, t);
    }
  }

  lemma StepBounded(r: Relay)
    requires Inv(r)
    ensures PendingWithin(r)
  {
    PendingBounded(r);
  }

  lemma NoTasksAtFirst(states: seq<Relay>, actions: seq<Action>)
    requires Run(states, actions)
    ensures |states| == |actions| + 1 && states[0].tasks == []
  {
  }

  lemma RankLater(r: Relay, a: Action, t: TaskId)
    requires Shape(r) && PendingWithin(r) && Enabled(r, a) && t < |Next(r, a).tasks|
    requires t < |r.tasks| ==> Rank(r.tasks[t]) <= FAR
    ensures Rank(Next(r, a).tasks[t]) <= FAR
  {
    if a.Arrive? {
      assert Next(r, a).tasks == r.tasks + [Greeting];
    } else {
      OnlyArrivalsAdd(r, a);
      hide Next;
      StepKeepsRank(r, a, t);
    }
  }

  /**
   While a handler depends on no peer, from state `i` to state `j` of a run, every step of its own counts
   down and no other step moves it: it takes at most `FAR` of them.
   */
  lemma {:induction false} CountsDown(states: seq<Relay>, actions: seq<Action>, i: nat, j: nat, t: TaskId)
    requires Run(states, actions) && i <= j < |states| == |actions| + 1 && t < |states[i].tasks|
    requires forall k :: i <= k < j && t < |states[k].tasks| ==> !UpToPeer(states[k].tasks[t])
    ensures t < |states[j].tasks|
    ensures OwnSteps(actions[i..j], t) + Rank(states[j].tasks[t]) <= Rank(states[i].tasks[t]) <= FAR
  {
    hide Run;
    hide Next;
    hide UpToPeer;
    hide Own;
    RankIsBounded(states, actions, i, t);
    if i < j {
      CountsDown(states, actions, i, j - 1, t);
      RunStep(states, actions, j - 1);
      PendingBounded(states[j - 1]);
      hide Inv;
      CountStep(states[j - 1], actions[j - 1], t);
      assert actions[i..j][..j - 1 - i] == actions[i..j - 1];
    }
  }

  /**
   However the relay is scheduled, a handler that has taken `FAR` steps of its own since state `i` has at
   some point had nothing left to do but read, write, bridge or end.
   */
  lemma HandlersComeToTheirPeer(states: seq<Relay>, actions: seq<Action>, i: nat, j: nat, t: TaskId) returns (k: nat)
    requires Run(states, actions) && i <= j < |states| == |actions| + 1 && t < |states[i].tasks|
    requires OwnSteps(actions[i..j], t) >= FAR
    ensures i <= k <= j && t < |states[k].tasks| && UpToPeer(states[k].tasks[t])
  {
    hide Run;
    if m: nat :| i <= m < j && t < |states[m].tasks| && UpToPeer(states[m].tasks[t]) {
      k := m;
    } else {
      CountsDown(states, actions, i, j, t);
      k := j;
      RankZeroIsUpToPeer(states[j].tasks[t]);
    }
  }
}
