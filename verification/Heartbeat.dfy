/**
 The heartbeat of the agent control channel as a timed machine. Time advances only while no timer that an
 idle loop watches is overdue; everything else, when writes complete, when Pings are handled and when frames
 arrive, is left open within the stated bounds.
 */
module Heartbeat {
  /**
   `HeartbeatTiming`, with two bounds on the environment: how long after its write a Ping is handled by the
   relay, and how long after the relay's loop the agent's loop starts.
   */
  datatype Timing = Timing(pingInterval: nat, deadAfter: nat, writeTimeout: nat, latency: nat, skew: nat)

  const DEFAULT_PING_INTERVAL: nat := 15_000
  const DEFAULT_DEAD_AFTER: nat := 45_000
  const DEFAULT_WRITE_TIMEOUT: nat := 10_000

  datatype LoopState =
    | Idle(lastPing: int, lastFrame: int)
    | Writing(since: int, lastFrame: int)
    | Stopped(at: int, lastFrame: int, dead: bool)

  /**
   `flights` are the completion times of the Pings written but not handled, oldest first; `early` says that
   the relay has already handled the Ping whose write is still under way.
   */
  datatype State = State(now: int, agent: LoopState, flights: seq<int>, early: bool, relayLast: int)

  datatype Action =
    | Tick(span: nat)
    | StartPing
    | EndPing
    | WriteTimesOut
    | HandlePing
    | FrameArrives
    | DeclareDead
    | Break            // the loop ends for any other reason

  /** The relay starts watching at `t`; the agent's loop starts at `a` and its first Ping is due at once. */
  function Begin(p: Timing, t: int, a: int): State {
    State(a, Idle(a - p.pingInterval, a), [], false, t)
  }

  predicate StartsInTime(p: Timing, t: int, a: int) {
    a <= t + p.skew
  }

  predicate Enabled(p: Timing, s: State, a: Action) {
    match a
    case Tick(span) =>
      && (s.agent.Idle? ==>
            s.now + span <= s.agent.lastPing + p.pingInterval && s.now + span <= s.agent.lastFrame + p.deadAfter)
      && (s.agent.Writing? ==> s.now + span <= s.agent.since + p.writeTimeout)
      && (s.flights != [] ==> s.now + span <= s.flights[0] + p.latency)
    case StartPing => s.agent.Idle? && s.now >= s.agent.lastPing + p.pingInterval
    case EndPing => s.agent.Writing?
    case WriteTimesOut => s.agent.Writing? && s.now >= s.agent.since + p.writeTimeout
    case HandlePing => s.flights != [] || (s.agent.Writing? && !s.early)
    case FrameArrives => s.agent.Idle?
    case DeclareDead => s.agent.Idle? && s.now >= s.agent.lastFrame + p.deadAfter
    case Break => !s.agent.Stopped?
  }

  function Next(p: Timing, s: State, a: Action): State
    requires Enabled(p, s, a)
  {
    match a
    case Tick(span) => s.(now := s.now + span)
    case StartPing => s.(agent := Writing(s.now, s.agent.lastFrame), early := false)
    case EndPing =>
      s.(agent := Idle(s.now, s.agent.lastFrame), flights := if s.early then s.flights else s.flights + [s.now],
         early := false)
    case WriteTimesOut => s.(agent := Stopped(s.now, s.agent.lastFrame, false))
    case HandlePing =>
      if s.flights != [] then s.(flights := s.flights[1..], relayLast := s.now) else s.(early := true, relayLast := s.now)
    case FrameArrives => s.(agent := Idle(s.agent.lastPing, s.now))
    case DeclareDead => s.(agent := Stopped(s.now, s.agent.lastFrame, true))
    case Break => s.(agent := Stopped(s.now, s.agent.lastFrame, false))
  }

  ghost predicate Run(p: Timing, states: seq<State>, actions: seq<Action>) {
    && |states| == |actions| + 1
    && (exists t, a :: states[0] == Begin(p, t, a) && StartsInTime(p, t, a))
    && forall i :: 0 <= i < |actions| ==> Enabled(p, states[i], actions[i]) && states[i + 1] == Next(p, states[i], actions[i])
  }

  ghost predicate Reachable(p: Timing, s: State) {
    exists states, actions :: Run(p, states, actions) && states[|states| - 1] == s
  }

  // ---------------------------------------------------------------- the relay's watch

  /** The condition on the timing under which the relay never gives up on a running agent. */
  predicate Sufficient(p: Timing) {
    && p.pingInterval + 2 * p.writeTimeout + p.latency < p.deadAfter
    && p.skew + p.writeTimeout + p.latency < p.deadAfter
  }

  /** Consecutive Pings complete within one interval and one write of each other. */
  ghost predicate FlightsSpaced(p: Timing, flights: seq<int>) {
    forall i :: 0 <= i < |flights| - 1 ==> flights[i] <= flights[i + 1] <= flights[i] + p.pingInterval + p.writeTimeout
  }

  /** The Ping that will be handled next, and by when. */
  ghost predicate NextPingInTime(p: Timing, s: State) {
    && FlightsSpaced(p, s.flights)
    && (s.flights != [] ==>
          && s.flights[0] + p.latency < s.relayLast + p.deadAfter
          && s.now <= s.flights[0] + p.latency)
    && (forall i :: 0 <= i < |s.flights| ==> s.flights[i] <= s.now)
    && match s.agent
       case Stopped(_, _, _) => true
       case Idle(lastPing, _) =>
         && s.now <= lastPing + p.pingInterval && !s.early
         && (s.flights == [] ==> lastPing + p.pingInterval + p.writeTimeout + p.latency < s.relayLast + p.deadAfter)
         && (s.flights != [] ==> lastPing == s.flights[|s.flights| - 1])
       case Writing(since, _) =>
         && since <= s.now <= since + p.writeTimeout
         && (s.early ==> s.flights == [] && since <= s.relayLast)
         && (s.flights == [] && !s.early ==> since + p.writeTimeout + p.latency < s.relayLast + p.deadAfter)
         && (s.flights != [] ==> since <= s.flights[|s.flights| - 1] + p.pingInterval)
  }

  lemma BeginsInTime(p: Timing, t: int, a: int)
    requires Sufficient(p) && StartsInTime(p, t, a)
    ensures NextPingInTime(p, Begin(p, t, a))
  {
  }

  lemma StaysInTime(p: Timing, s: State, a: Action)
    requires Sufficient(p) && NextPingInTime(p, s) && Enabled(p, s, a)
    ensures NextPingInTime(p, Next(p, s, a))
  {
    var n := Next(p, s, a);
    if a.HandlePing? && |s.flights| > 1 {
      assert n.flights[0] == s.flights[1];
    }
  }

  lemma {:induction false} AlwaysInTime(p: Timing, states: seq<State>, actions: seq<Action>, i: nat)
    requires Sufficient(p) && Run(p, states, actions) && i < |states|
    ensures NextPingInTime(p, states[i])
  {
    if i == 0 {
      var t, a :| states[0] == Begin(p, t, a) && StartsInTime(p, t, a);
      BeginsInTime(p, t, a);
    } else {
      AlwaysInTime(p, states, actions, i - 1);
      StaysInTime(p, states[i - 1], actions[i - 1]);
    }
  }

  /** While the agent's loop runs, the relay's timeout arm is never due. */
  lemma RelayNeverTimesOut(p: Timing, s: State)
    requires Sufficient(p) && Reachable(p, s) && !s.agent.Stopped?
    ensures s.now < s.relayLast + p.deadAfter
  {
    var states, actions :| Run(p, states, actions) && states[|states| - 1] == s;
    AlwaysInTime(p, states, actions, |states| - 1);
  }

  /** The shipped timing leaves almost ten seconds for delivery. */
  lemma DefaultTimingIsSufficient(latency: nat, skew: nat)
    requires latency < 10_000 && skew < 25_000
    ensures Sufficient(Timing(DEFAULT_PING_INTERVAL, DEFAULT_DEAD_AFTER, DEFAULT_WRITE_TIMEOUT, latency, skew))
  {
  }

  // ---------------------------------------------------------------- the agent's watch

  /** How far past the last frame the agent's loop can be. */
  predicate WatchKept(p: Timing, s: State) {
    match s.agent
    case Idle(lastPing, lastFrame) =>
      && lastFrame <= s.now <= lastFrame + p.deadAfter + p.writeTimeout
      && (s.now > lastFrame + p.deadAfter ==> lastPing == s.now)
    case Writing(since, lastFrame) =>
      lastFrame <= since <= s.now <= since + p.writeTimeout && since <= lastFrame + p.deadAfter
    case Stopped(at, lastFrame, dead) =>
      && lastFrame <= at <= lastFrame + p.deadAfter + p.writeTimeout
      && (dead ==> at >= lastFrame + p.deadAfter)
  }

  lemma WatchStep(p: Timing, s: State, a: Action)
    requires p.pingInterval > 0 && WatchKept(p, s) && Enabled(p, s, a)
    ensures WatchKept(p, Next(p, s, a))
  {
  }

  lemma {:induction false} WatchAlwaysKept(p: Timing, states: seq<State>, actions: seq<Action>, i: nat)
    requires p.pingInterval > 0 && Run(p, states, actions) && i < |states|
    ensures WatchKept(p, states[i])
  {
    if i > 0 {
      WatchAlwaysKept(p, states, actions, i - 1);
      WatchStep(p, states[i - 1], actions[i - 1]);
    }
  }

  /**
   A relay that falls silent is noticed: the agent's loop runs at most one dead window and one write past the
   last frame it handled, and the heartbeat arm never ends it before that window is over.
   */
  lemma SilenceIsNoticed(p: Timing, s: State)
    requires p.pingInterval > 0 && Reachable(p, s)
    ensures !s.agent.Stopped? ==> s.now <= s.agent.lastFrame + p.deadAfter + p.writeTimeout
    ensures s.agent.Stopped? ==> s.agent.at <= s.agent.lastFrame + p.deadAfter + p.writeTimeout
    ensures s.agent.Stopped? && s.agent.dead ==> s.agent.at >= s.agent.lastFrame + p.deadAfter
  {
    var states, actions :| Run(p, states, actions) && states[|states| - 1] == s;
    WatchAlwaysKept(p, states, actions, |states| - 1);
  }

  /** A timer of the loop, or a delivery, that has to happen before time goes on. */
  predicate Due(p: Timing, s: State, a: Action) {
    match a
    case StartPing => s.agent.Idle? && s.now >= s.agent.lastPing + p.pingInterval
    case DeclareDead => s.agent.Idle? && s.now >= s.agent.lastFrame + p.deadAfter
    case WriteTimesOut => s.agent.Writing? && s.now >= s.agent.since + p.writeTimeout
    case HandlePing => s.flights != [] && s.now >= s.flights[0] + p.latency
    case _ => false
  }

  /** Every timer fires when it is due, and nothing else holds up time. */
  lemma TimersFire(p: Timing, s: State, a: Action)
    ensures Due(p, s, a) ==> Enabled(p, s, a)
    ensures (forall b :: !Due(p, s, b)) ==> Enabled(p, s, Tick(1))
  {
    assert Due(p, s, StartPing) || Due(p, s, DeclareDead) || Due(p, s, WriteTimesOut) || Due(p, s, HandlePing)
           || Enabled(p, s, Tick(1));
  }

  /** The loop ends at once on a write that took too long, on silence, or on another error, and for good. */
  lemma LoopEndsFor(p: Timing, s: State, a: Action)
    requires Enabled(p, s, a)
    ensures var n := Next(p, s, a);
      && (n.agent.Stopped? <==> s.agent.Stopped? || a.WriteTimesOut? || a.DeclareDead? || a.Break?)
      && (n.agent.Stopped? && !s.agent.Stopped? ==> n.agent.at == s.now && (n.agent.dead <==> a.DeclareDead?))
      && (s.agent.Stopped? ==> n.agent == s.agent)
  {
  }

  // ---------------------------------------------------------------- the bound is tight

  lemma ReachableNext(p: Timing, s: State, a: Action)
    requires Reachable(p, s) && Enabled(p, s, a)
    ensures Reachable(p, Next(p, s, a))
  {
    var states, actions :| Run(p, states, actions) && states[|states| - 1] == s;
    var longer, more := states + [Next(p, s, a)], actions + [a];
    assert longer[0] == states[0];
    forall i | 0 <= i < |more|
      ensures Enabled(p, longer[i], more[i]) && longer[i + 1] == Next(p, longer[i], more[i])
    {
      if i < |actions| {
        assert longer[i] == states[i] && longer[i + 1] == states[i + 1];
      }
    }
    assert Run(p, longer, more);
  }

  lemma ReachableBegin(p: Timing, a: nat)
    requires a <= p.skew
    ensures Reachable(p, Begin(p, 0, a))
  {
    assert StartsInTime(p, 0, a);
    assert Run(p, [Begin(p, 0, a)], []);
  }

  lemma Advance(p: Timing, s: State, a: Action) returns (n: State)
    requires Reachable(p, s) && Enabled(p, s, a)
    ensures Reachable(p, n) && n == Next(p, s, a)
  {
    n := Next(p, s, a);
    ReachableNext(p, s, a);
  }

  /** While one Ping is on its way the agent beats on, and time passes up to the latest moment of its arrival. */
  lemma {:induction false} WaitOut(p: Timing, s: State, until: int) returns (n: State)
    requires 0 < p.pingInterval <= p.deadAfter && Reachable(p, s) && s.agent.Idle? && s.flights != []
    requires s.agent.lastPing <= s.now <= s.agent.lastPing + p.pingInterval && s.now <= until <= s.flights[0] + p.latency
    ensures Reachable(p, n) && !n.agent.Stopped? && n.now == until && n.relayLast == s.relayLast
    decreases until - s.agent.lastPing
  {
    n := Advance(p, s, FrameArrives);
    if until <= s.agent.lastPing + p.pingInterval {
      n := Advance(p, n, Tick(until - s.now));
    } else {
      n := Advance(p, n, Tick(s.agent.lastPing + p.pingInterval - s.now));
      n := Advance(p, n, StartPing);
      n := Advance(p, n, EndPing);
      n := WaitOut(p, n, until);
    }
  }

  /** The agent's next Ping is written as slowly, and delivered as late, as can be. */
  lemma SlowPing(p: Timing, s: State) returns (n: State)
    requires 0 < p.pingInterval <= p.deadAfter && Reachable(p, s) && s.agent.Idle? && s.flights == [] && !s.early
    requires s.now == s.agent.lastPing + p.pingInterval
    ensures Reachable(p, n) && !n.agent.Stopped?
    ensures n.now == s.now + p.writeTimeout + p.latency && n.relayLast == s.relayLast
  {
    n := Advance(p, s, StartPing);
    n := Advance(p, n, Tick(p.writeTimeout));
    n := Advance(p, n, EndPing);
    n := WaitOut(p, n, n.now + p.latency);
  }

  /** A first Ping handled as soon as its write begins, and a second one handled as late as can be. */
  lemma SlowSecondPing(p: Timing) returns (s: State)
    requires 0 < p.pingInterval <= p.deadAfter
    ensures Reachable(p, s) && !s.agent.Stopped?
    ensures s.now == s.relayLast + p.pingInterval + 2 * p.writeTimeout + p.latency
  {
    s := Begin(p, 0, 0);
    ReachableBegin(p, 0);
    s := Advance(p, s, StartPing);
    s := Advance(p, s, HandlePing);
    s := Advance(p, s, Tick(p.writeTimeout));
    s := Advance(p, s, EndPing);
    s := Advance(p, s, FrameArrives);
    s := Advance(p, s, Tick(p.pingInterval));
    s := SlowPing(p, s);
  }

  /** Pings too rare to keep the relay awake at all. */
  lemma RarePings(p: Timing) returns (s: State)
    requires p.deadAfter < p.pingInterval
    ensures Reachable(p, s) && !s.agent.Stopped? && s.now == s.relayLast + p.deadAfter
  {
    s := Begin(p, 0, 0);
    ReachableBegin(p, 0);
    s := Advance(p, s, StartPing);
    s := Advance(p, s, HandlePing);
    s := Advance(p, s, EndPing);
    s := Advance(p, s, Tick(p.deadAfter));
  }

  /** The relay never gives up on a running agent exactly when the timing is sufficient. */
  lemma TimingBoundIsExact(p: Timing)
    requires p.pingInterval > 0
    ensures (forall s :: Reachable(p, s) && !s.agent.Stopped? ==> s.now < s.relayLast + p.deadAfter) <==> Sufficient(p)
  {
    if Sufficient(p) {
      forall s | Reachable(p, s) && !s.agent.Stopped?
        ensures s.now < s.relayLast + p.deadAfter
      {
        RelayNeverTimesOut(p, s);
      }
    } else {
      var s: State;
      if p.deadAfter < p.pingInterval {
        s := RarePings(p);
      } else if p.pingInterval + 2 * p.writeTimeout + p.latency >= p.deadAfter {
        s := SlowSecondPing(p);
      } else {
        ReachableBegin(p, p.skew);
        s := SlowPing(p, Begin(p, 0, p.skew));
      }
      assert !(s.now < s.relayLast + p.deadAfter);
    }
  }
}
