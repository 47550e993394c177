/** `fail_pending` over a whole run: every sender in the map of an ended generation is answered exactly once. */
module RelayDraining {
  import opened Relay
  import opened RelayFrames
  import opened RelaySenders
  import opened RelaySessions
  import opened RelayTheorems

  /** The handler is past its map swap and has no use for the sender of `c`, any more or at all. */
  predicate Through(task: Task, c: TaskId) {
    (task.Failing? && c !in task.batch) || task.Unregistering? || task.Leaving? || task.Done?
  }

  lemma StaysInBatch(r: Relay, a: Action, t: TaskId, c: TaskId)
    requires Shape(r) && Enabled(r, a) && t < |r.tasks| && c in Batch(r.tasks[t])
    ensures t < |Next(r, a).tasks|
    ensures if a == Resolve(t, c) then Through(Next(r, a).tasks[t], c) else c in Batch(Next(r, a).tasks[t])
  {
    if !a.Arrive? && !a.Reload? {
      OnlyStep(r, a);
      hide OnReceive;
      hide OnWrite;
      hide OnFail;
      hide OnLock;
      hide OnEnqueue;
      hide OnCollect;
    }
  }

  lemma StaysThrough(r: Relay, a: Action, t: TaskId, c: TaskId)
    requires Shape(r) && Enabled(r, a) && t < |r.tasks| && Through(r.tasks[t], c)
    ensures a != Resolve(t, c) && t < |Next(r, a).tasks| && Through(Next(r, a).tasks[t], c)
  {
    if !a.Arrive? && !a.Reload? {
      OnlyStep(r, a);
      hide OnReceive;
      hide OnWrite;
      hide OnFail;
      hide OnEnqueue;
      hide OnCollect;
    }
  }

  /** From then on that sender is never answered by this handler. */
  lemma {:induction false} NeverAgain(states: seq<Relay>, actions: seq<Action>, i: nat, j: nat, t: TaskId, c: TaskId)
    requires Run(states, actions) && i <= j < |states| == |actions| + 1
    requires t < |states[i].tasks| && Through(states[i].tasks[t], c)
    ensures forall k: nat :: i <= k < j ==> actions[k] != Resolve(t, c)
    decreases j - i
  {
    hide Run;
    hide Next;
    hide Through;
    if i < j {
      RunStep(states, actions, i);
      hide Inv;
      StaysThrough(states[i], actions[i], t, c);
      NeverAgain(states, actions, i + 1, j, t, c);
    }
  }

  /** Before it leaves the batch, the sender is answered, and then never again. */
  lemma {:induction false} AnsweredOnce(states: seq<Relay>, actions: seq<Action>, i: nat, j: nat, t: TaskId, c: TaskId)
      returns (k: nat)
    requires Run(states, actions) && i <= j < |states| == |actions| + 1
    requires t < |states[i].tasks| && c in Batch(states[i].tasks[t])
    requires t < |states[j].tasks| && c !in Batch(states[j].tasks[t])
    ensures i <= k < j && actions[k] == Resolve(t, c)
    ensures forall m: nat :: i <= m < j && actions[m] == Resolve(t, c) ==> m == k
    decreases j - i
  {
    hide Run;
    hide Next;
    hide Through;
    RunStep(states, actions, i);
    hide Inv;
    StaysInBatch(states[i], actions[i], t, c);
    if actions[i] == Resolve(t, c) {
      k := i;
      NeverAgain(states, actions, i + 1, j, t, c);
    } else {
      k := AnsweredOnce(states, actions, i + 1, j, t, c);
    }
  }

  /** The map swap takes the whole map. */
  lemma SwapTakesAll(states: seq<Relay>, actions: seq<Action>, i: nat, t: TaskId)
    requires Run(states, actions) && i < |actions| && |states| == |actions| + 1
    requires actions[i] == Lock(t) && t < |states[i].tasks| && states[i].tasks[t].Draining?
    ensures t < |states[i + 1].tasks| && states[i + 1].tasks[t].Failing? && states[i].tasks[t].gen < |states[i].gens|
    ensures states[i + 1].tasks[t].batch == states[i].gens[states[i].tasks[t].gen].pending.Values
  {
    hide Run;
    RunStep(states, actions, i);
    hide Inv;
    assert CanLock(states[i], t);
    assert states[i + 1] == Drain(states[i], t);
  }

  /** An answer finds its controller's channel unanswered, and refuses it exactly when the controller listens. */
  lemma AnswerArrives(r: Relay, t: TaskId, c: TaskId)
    requires Inv(r) && CanResolve(r, t, c)
    ensures var before, after := r.chans[c], OnResolve(r, t, c).chans[c];
      && !Answered(before) && before.place == InBatch(t) && after.place == Spent
      && (if r.tasks[c].Queueing? || r.tasks[c].Waiting? then after.inbox == Refusal("device control connection ended")
          else after.inbox == before.inbox)
  {
    assert c in Batch(r.tasks[t]);
    assert ChanRefs(r, c);
  }

  lemma AnsweredAt(states: seq<Relay>, actions: seq<Action>, k: nat, t: TaskId, c: TaskId)
    requires Run(states, actions) && k < |actions| && |states| == |actions| + 1 && actions[k] == Resolve(t, c)
    ensures c < |states[k].tasks| == |states[k].chans| && c < |states[k + 1].chans|
    ensures !Answered(states[k].chans[c]) && states[k + 1].chans[c].place == Spent
    ensures states[k + 1].chans[c].inbox == (if states[k].tasks[c].Queueing? || states[k].tasks[c].Waiting?
                                            then Refusal("device control connection ended") else states[k].chans[c].inbox)
  {
    hide Run;
    RunStep(states, actions, k);
    hide Inv;
    AnswerArrives(states[k], t, c);
  }

  /**
   A control handler swaps its generation's map out in state `i` and has finished `fail_pending` in state `j`.
   In between it answers every controller whose sender was in the map exactly once: with a refusal if that
   controller still waits, and into the void if it has given up.
   */
  lemma FailPendingAnswersAll(states: seq<Relay>, actions: seq<Action>, i: nat, j: nat, t: TaskId, c: TaskId)
      returns (k: nat)
    requires Run(states, actions) && i < j < |states| == |actions| + 1
    requires actions[i] == Lock(t) && t < |states[i].tasks| && states[i].tasks[t].Draining?
    requires t < |states[j].tasks| && states[j].tasks[t].Unregistering?
    requires states[i].tasks[t].gen < |states[i].gens| && c in states[i].gens[states[i].tasks[t].gen].pending.Values
    ensures i < k < j && actions[k] == Resolve(t, c)
    ensures forall m: nat :: i < m < j && actions[m] == Resolve(t, c) ==> m == k
    ensures c < |states[k].tasks| == |states[k].chans| && c < |states[k + 1].chans|
    ensures !Answered(states[k].chans[c]) && states[k + 1].chans[c].place == Spent
    ensures states[k + 1].chans[c].inbox == (if states[k].tasks[c].Queueing? || states[k].tasks[c].Waiting?
                                            then Refusal("device control connection ended") else states[k].chans[c].inbox)
  {
    hide Run;
    hide Next;
    hide Inv;
    SwapTakesAll(states, actions, i, t);
    k := AnsweredOnce(states, actions, i + 1, j, t, c);
    AnsweredAt(states, actions, k, t, c);
  }

  /** And it answers nobody else. */
  lemma FailPendingAnswersNoOther(states: seq<Relay>, actions: seq<Action>, i: nat, j: nat, t: TaskId, c: TaskId)
    requires Run(states, actions) && i < j < |states| == |actions| + 1
    requires actions[i] == Lock(t) && t < |states[i].tasks| && states[i].tasks[t].Draining?
    requires states[i].tasks[t].gen < |states[i].gens| && c !in states[i].gens[states[i].tasks[t].gen].pending.Values
    ensures forall k: nat :: i < k < j ==> actions[k] != Resolve(t, c)
  {
    hide Run;
    SwapTakesAll(states, actions, i, t);
    NeverAgain(states, actions, i + 1, j, t, c);
  }
}
