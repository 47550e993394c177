/** `run_control_stream`, the agent's control loop, and the supervisor that reconnects it. */
module AgentLoop {
  import opened Bytes
  import opened Messages
  import opened Tasks

  datatype HeartbeatTiming = HeartbeatTiming(pingInterval: nat, deadAfter: nat, writeTimeout: nat)

  /** What happens next: something the other tasks do, or the arm `select!` picks among the ready ones. */
  datatype Event =
    | Decoded(message: Message)
    | Pushed
    | ReaderFails
    | SessionEnds(session: nat)
    | PickFrame
    | PickSession(session: nat)
    | PickReader
    | PickPing(took: nat, ok: bool)   // how long the write would take, and whether it succeeds
    | PickDead

  datatype Moment = Moment(wait: nat, event: Event)

  datatype Exit =
    | Cancelled                        // the supervisor was stopped
    | Surprised(message: Message)
    | ReaderEnded
    | PingFailed
    | PingTimedOut
    | NoHeartbeat

  /** Pings never complete closer together than the interval. */
  ghost predicate Spaced(pings: seq<int>, interval: nat) {
    forall i, j :: 0 <= i < j < |pings| ==> pings[i] + interval <= pings[j]
  }

  ghost predicate Beats(timing: HeartbeatTiming, pings: seq<int>, lastPing: int) {
    Spaced(pings, timing.pingInterval) && (pings != [] ==> pings[|pings| - 1] == lastPing)
  }

  /** Every frame but a last surprising one is an Open or a Pong. */
  ghost predicate AllRoutine(frames: seq<Message>, exit: Exit) {
    forall i :: 0 <= i < |frames| ==> ControlTraffic(frames[i]) || (i == |frames| - 1 && exit == Surprised(frames[i]))
  }

  lemma RoutineMore(frames: seq<Message>, m: Message)
    requires AllRoutine(frames, Cancelled)
    ensures AllRoutine(frames + [m], if ControlTraffic(m) then Cancelled else Surprised(m))
  {
  }

  /** When the last frame before a surprising one was handled; the start of the loop when there is none. */
  ghost function LastSeen(times: seq<int>, exit: Exit, start: int): int {
    var routine := if exit.Surprised? && times != [] then times[..|times| - 1] else times;
    if routine == [] then start else routine[|routine| - 1]
  }

  lemma SeenMore(times: seq<int>, now: int, m: Message, start: int)
    ensures LastSeen(times + [now], if ControlTraffic(m) then Cancelled else Surprised(m), start)
            == if ControlTraffic(m) then now else LastSeen(times, Cancelled, start)
  {
    assert (times + [now])[..|times|] == times;
  }

  /** The loop's local variables. */
  datatype Pulse = Pulse(pings: seq<int>, lastPing: int, lastFrame: int, clock: int)

  /** What they say about the frames handled at `times` and the Pings written. */
  ghost predicate Truthful(pulse: Pulse, timing: HeartbeatTiming, heartbeat: bool, start: int, frames: seq<Message>,
                           times: seq<int>, exit: Exit) {
    && Beats(timing, pulse.pings, pulse.lastPing) && (!heartbeat ==> pulse.pings == [])
    && |times| == |frames| && pulse.lastFrame == LastSeen(times, exit, start)
    && AllRoutine(frames, exit)
    && pulse.lastPing <= pulse.clock && start <= pulse.lastFrame <= pulse.clock
  }

  /** Another frame at hand, or none: the variables stay true. */
  lemma FrameTruthful(pulse: Pulse, timing: HeartbeatTiming, heartbeat: bool, start: int, frames: seq<Message>,
                      times: seq<int>, m: Message)
    requires Truthful(pulse, timing, heartbeat, start, frames, times, Cancelled)
    ensures var after := if ControlTraffic(m) then pulse.(lastFrame := pulse.clock) else pulse;
            Truthful(after, timing, heartbeat, start, frames + [m], times + [pulse.clock],
                     if ControlTraffic(m) then Cancelled else Surprised(m))
  {
    SeenMore(times, pulse.clock, m, start);
    RoutineMore(frames, m);
  }

  lemma StillTruthful(pulse: Pulse, timing: HeartbeatTiming, heartbeat: bool, start: int, frames: seq<Message>,
                      times: seq<int>, exit: Exit)
    requires Truthful(pulse, timing, heartbeat, start, frames, times, Cancelled) && !exit.Surprised?
    ensures Truthful(pulse, timing, heartbeat, start, frames, times, exit)
  {
  }

  lemma LaterTruthful(pulse: Pulse, timing: HeartbeatTiming, heartbeat: bool, start: int, frames: seq<Message>,
                      times: seq<int>, wait: nat)
    requires Truthful(pulse, timing, heartbeat, start, frames, times, Cancelled)
    ensures Truthful(pulse.(clock := pulse.clock + wait), timing, heartbeat, start, frames, times, Cancelled)
  {
  }

  // ---------------------------------------------------------------- the loop, moment by moment

  /** The loop and everything it owns; `times` are the moments at which frames were handled. */
  datatype Scene = Scene(reading: Reading, sessions: Sessions, pulse: Pulse, times: seq<int>, exit: Exit)

  predicate PingDue(timing: HeartbeatTiming, heartbeat: bool, pulse: Pulse) {
    heartbeat && pulse.clock >= pulse.lastPing + timing.pingInterval
  }

  predicate SilenceDue(timing: HeartbeatTiming, heartbeat: bool, pulse: Pulse) {
    heartbeat && pulse.clock >= pulse.lastFrame + timing.deadAfter
  }

  function Waited(s: Scene, wait: nat): Scene {
    s.(pulse := s.pulse.(clock := s.pulse.clock + wait))
  }

  /** A frame is received: an Open starts a session, a Pong is noted, anything else ends the loop. */
  function FrameArm(s: Scene): Scene {
    if s.reading.queue == [] then
      if s.reading.finished then s.(exit := ReaderEnded) else s
    else
      var m := s.reading.queue[0];
      var t := s.(reading := Receiving(s.reading), times := s.times + [s.pulse.clock]);
      if m.Open? then t.(sessions := Spawning(s.sessions, m.sessionId), pulse := s.pulse.(lastFrame := s.pulse.clock))
      else if m == Pong then t.(pulse := s.pulse.(lastFrame := s.pulse.clock))
      else t.(exit := Surprised(m))
  }

  /** A Ping is written within its deadline; the interval to the next one runs from its completion. */
  function PingArm(timing: HeartbeatTiming, s: Scene, took: nat, ok: bool): Scene {
    if took > timing.writeTimeout then
      s.(exit := PingTimedOut, pulse := s.pulse.(clock := s.pulse.clock + timing.writeTimeout))
    else
      var after := s.pulse.(clock := s.pulse.clock + took);
      if ok then s.(pulse := after.(pings := after.pings + [after.clock], lastPing := after.clock))
      else s.(exit := PingFailed, pulse := after)
  }

  /** One pass through `select!`, or something the other tasks do meanwhile. */
  function Onward(timing: HeartbeatTiming, heartbeat: bool, before: Scene, moment: Moment): Scene {
    if before.exit != Cancelled then before
    else
      var s := Waited(before, moment.wait);
      match moment.event
      case Decoded(m) => s.(reading := Decoding(s.reading, m))
      case Pushed => s.(reading := Pushing(s.reading))
      case ReaderFails => s.(reading := Failing(s.reading))
      case SessionEnds(k) => s.(sessions := Ending(s.sessions, k))
      case PickFrame => FrameArm(s)
      case PickSession(k) => s.(sessions := s.sessions.(ended := s.sessions.ended - {k}))
      case PickReader =>
        if s.reading.finished then s.(reading := s.reading.(consumed := true), exit := ReaderEnded) else s
      case PickPing(took, ok) => if PingDue(timing, heartbeat, s.pulse) then PingArm(timing, s, took, ok) else s
      case PickDead => if SilenceDue(timing, heartbeat, s.pulse) then s.(exit := NoHeartbeat) else s
  }

  /** The loop after the first `n` moments of a script. */
  function SceneAt(timing: HeartbeatTiming, heartbeat: bool, first: Scene, script: seq<Moment>, n: nat): Scene
    requires n <= |script|
  {
    if n == 0 then first else Onward(timing, heartbeat, SceneAt(timing, heartbeat, first, script, n - 1), script[n - 1])
  }

  /** The first Ping is due at once. */
  function FirstScene(timing: HeartbeatTiming, reading: Reading, sessions: Sessions, start: int): Scene {
    Scene(reading, sessions, Pulse([], start - timing.pingInterval, start, start), [], Cancelled)
  }

  ghost function SceneOf(reader: ReaderTask, sessions: SessionSet, pulse: Pulse, times: seq<int>, exit: Exit): Scene
    reads reader, sessions
  {
    Scene(reader.Now(), sessions.Now(), pulse, times, exit)
  }

  // ---------------------------------------------------------------- what every moment keeps

  /** The sessions started are those of the Opens handled, and the loop ends for a reason. */
  ghost predicate Coherent(timing: HeartbeatTiming, heartbeat: bool, start: int, earlier: seq<SessionId>, s: Scene) {
    && Truthful(s.pulse, timing, heartbeat, start, s.reading.handled, s.times, s.exit)
    && s.sessions.started == earlier + OpensIn(s.reading.handled)
    && (s.exit.NoHeartbeat? ==> SilenceDue(timing, heartbeat, s.pulse))
    && (s.exit.PingFailed? || s.exit.PingTimedOut? ==> heartbeat)
    && (s.exit.Surprised? ==>
          && s.reading.handled != [] && s.reading.handled[|s.reading.handled| - 1] == s.exit.message
          && !ControlTraffic(s.exit.message))
  }

  lemma FrameCoherent(timing: HeartbeatTiming, heartbeat: bool, start: int, earlier: seq<SessionId>, s: Scene)
    requires Coherent(timing, heartbeat, start, earlier, s) && s.exit == Cancelled
    ensures Coherent(timing, heartbeat, start, earlier, FrameArm(s))
  {
    if s.reading.queue != [] {
      FrameTruthful(s.pulse, timing, heartbeat, start, s.reading.handled, s.times, s.reading.queue[0]);
      OpensSnoc(s.reading.handled, s.reading.queue[0]);
    }
    hide Truthful;
    hide OpensIn;
    StillTruthful(s.pulse, timing, heartbeat, start, s.reading.handled, s.times, ReaderEnded);
  }

  lemma PingCoherent(timing: HeartbeatTiming, start: int, earlier: seq<SessionId>, s: Scene, took: nat, ok: bool)
    requires Coherent(timing, true, start, earlier, s) && s.exit == Cancelled && PingDue(timing, true, s.pulse)
    ensures Coherent(timing, true, start, earlier, PingArm(timing, s, took, ok))
  {
    hide OpensIn;
  }

  lemma Coheres(timing: HeartbeatTiming, heartbeat: bool, start: int, earlier: seq<SessionId>, s: Scene, moment: Moment)
    requires Coherent(timing, heartbeat, start, earlier, s)
    ensures Coherent(timing, heartbeat, start, earlier, Onward(timing, heartbeat, s, moment))
  {
    if s.exit == Cancelled {
      LaterTruthful(s.pulse, timing, heartbeat, start, s.reading.handled, s.times, moment.wait);
      var w := Waited(s, moment.wait);
      hide Truthful;
      hide OpensIn;
      hide FrameArm;
      hide PingArm;
      match moment.event
      case PickFrame => FrameCoherent(timing, heartbeat, start, earlier, w);
      case PickPing(took, ok) =>
        if PingDue(timing, heartbeat, w.pulse) {
          PingCoherent(timing, start, earlier, w, took, ok);
        }
      case PickReader => StillTruthful(w.pulse, timing, heartbeat, start, s.reading.handled, s.times, ReaderEnded);
      case PickDead => StillTruthful(w.pulse, timing, heartbeat, start, s.reading.handled, s.times, NoHeartbeat);
      case _ =>
    }
  }

  lemma {:induction false} SceneCoherent(timing: HeartbeatTiming, heartbeat: bool, reading: Reading, sessions: Sessions,
                                         start: int, script: seq<Moment>, n: nat)
    requires n <= |script| && reading.handled == []
    ensures Coherent(timing, heartbeat, start, sessions.started,
                     SceneAt(timing, heartbeat, FirstScene(timing, reading, sessions, start), script, n))
  {
    hide Onward;
    if n > 0 {
      hide Coherent;
      SceneCoherent(timing, heartbeat, reading, sessions, start, script, n - 1);
      Coheres(timing, heartbeat, start, sessions.started,
              SceneAt(timing, heartbeat, FirstScene(timing, reading, sessions, start), script, n - 1), script[n - 1]);
    } else {
      assert OpensIn([]) == [];
    }
  }

  // ---------------------------------------------------------------- what becomes of each moment

  /** Nothing handled, started or written is ever taken back, and an ended loop does nothing more. */
  ghost predicate Follows(s: Scene, t: Scene) {
    && s.reading.handled <= t.reading.handled && s.reading.decoded <= t.reading.decoded
    && s.sessions.started <= t.sessions.started && s.pulse.pings <= t.pulse.pings
    && s.sessions.aborted == t.sessions.aborted && s.sessions.finished <= t.sessions.finished
    && (s.exit != Cancelled ==> t == s)
  }

  lemma OnwardFollows(timing: HeartbeatTiming, heartbeat: bool, s: Scene, moment: Moment)
    ensures Follows(s, Onward(timing, heartbeat, s, moment))
  {
  }

  lemma NextScene(timing: HeartbeatTiming, heartbeat: bool, first: Scene, script: seq<Moment>, i: nat)
    requires i < |script|
    ensures SceneAt(timing, heartbeat, first, script, i + 1)
            == Onward(timing, heartbeat, SceneAt(timing, heartbeat, first, script, i), script[i])
  {
  }

  lemma {:induction false} LaterFollows(timing: HeartbeatTiming, heartbeat: bool, first: Scene, script: seq<Moment>, i: nat,
                                        n: nat)
    requires i <= n <= |script|
    ensures Follows(SceneAt(timing, heartbeat, first, script, i), SceneAt(timing, heartbeat, first, script, n))
  {
    hide SceneAt;
    hide Onward;
    if i < n {
      LaterFollows(timing, heartbeat, first, script, i, n - 1);
      NextScene(timing, heartbeat, first, script, n - 1);
      OnwardFollows(timing, heartbeat, SceneAt(timing, heartbeat, first, script, n - 1), script[n - 1]);
    }
  }

  lemma FrameTaken(timing: HeartbeatTiming, heartbeat: bool, s: Scene, moment: Moment)
    requires s.exit == Cancelled && moment.event.PickFrame? && s.reading.queue != []
    ensures var m, t := s.reading.queue[0], Onward(timing, heartbeat, s, moment);
      && t.reading.handled == s.reading.handled + [m] && t.reading.queue == s.reading.queue[1..]
      && t.reading.finished == s.reading.finished && t.reading.hand == s.reading.hand
      && t.sessions.started == s.sessions.started + (if m.Open? then [m.sessionId] else [])
      && t.exit == (if ControlTraffic(m) then Cancelled else Surprised(m))
      && (ControlTraffic(m) ==> t.pulse.lastFrame == s.pulse.clock + moment.wait)
  {
  }

  /** A frame in the channel is handled when its arm is picked; an Open has then started its session. */
  lemma FrameIsHandled(timing: HeartbeatTiming, heartbeat: bool, first: Scene, script: seq<Moment>, i: nat, n: nat)
    requires i < n <= |script| && script[i].event.PickFrame?
    requires SceneAt(timing, heartbeat, first, script, i).exit == Cancelled
    requires SceneAt(timing, heartbeat, first, script, i).reading.queue != []
    ensures var s, t := SceneAt(timing, heartbeat, first, script, i), SceneAt(timing, heartbeat, first, script, n);
      var m := s.reading.queue[0];
      && s.reading.handled + [m] <= t.reading.handled
      && (m.Open? ==> s.sessions.started + [m.sessionId] <= t.sessions.started)
      && (!ControlTraffic(m) ==> t.exit == Surprised(m))
      && (ControlTraffic(m) ==>
            SceneAt(timing, heartbeat, first, script, i + 1).pulse.lastFrame == s.pulse.clock + script[i].wait)
  {
    hide SceneAt;
    hide Onward;
    NextScene(timing, heartbeat, first, script, i);
    FrameTaken(timing, heartbeat, SceneAt(timing, heartbeat, first, script, i), script[i]);
    LaterFollows(timing, heartbeat, first, script, i + 1, n);
  }

  lemma EndOfReader(timing: HeartbeatTiming, heartbeat: bool, s: Scene, moment: Moment)
    requires s.exit == Cancelled && s.reading.finished
    requires moment.event.PickReader? || (moment.event.PickFrame? && s.reading.queue == [])
    ensures Onward(timing, heartbeat, s, moment).exit == ReaderEnded
  {
  }

  /** The end of the reader ends the loop, through its handle or its empty channel. */
  lemma ReaderEndIsNoticed(timing: HeartbeatTiming, heartbeat: bool, first: Scene, script: seq<Moment>, i: nat, n: nat)
    requires i < n <= |script|
    requires SceneAt(timing, heartbeat, first, script, i).exit == Cancelled
    requires SceneAt(timing, heartbeat, first, script, i).reading.finished
    requires script[i].event.PickReader?
             || (script[i].event.PickFrame? && SceneAt(timing, heartbeat, first, script, i).reading.queue == [])
    ensures SceneAt(timing, heartbeat, first, script, n).exit == ReaderEnded
  {
    hide SceneAt;
    hide Onward;
    NextScene(timing, heartbeat, first, script, i);
    EndOfReader(timing, heartbeat, SceneAt(timing, heartbeat, first, script, i), script[i]);
    LaterFollows(timing, heartbeat, first, script, i + 1, n);
  }

  lemma PingTaken(timing: HeartbeatTiming, s: Scene, moment: Moment)
    requires s.exit == Cancelled && moment.event.PickPing?
    requires s.pulse.lastPing + timing.pingInterval <= s.pulse.clock + moment.wait
    ensures var t := Onward(timing, true, s, moment);
      if moment.event.took > timing.writeTimeout then t.exit == PingTimedOut
      else if !moment.event.ok then t.exit == PingFailed
      else t.pulse.pings == s.pulse.pings + [s.pulse.clock + moment.wait + moment.event.took]
  {
  }

  /** A Ping that is due is written, or ends the loop. */
  lemma PingIsWritten(timing: HeartbeatTiming, first: Scene, script: seq<Moment>, i: nat, n: nat)
    requires i < n <= |script| && script[i].event.PickPing?
    requires SceneAt(timing, true, first, script, i).exit == Cancelled
    requires var s := SceneAt(timing, true, first, script, i).pulse;
      s.lastPing + timing.pingInterval <= s.clock + script[i].wait
    ensures var s, t := SceneAt(timing, true, first, script, i).pulse, SceneAt(timing, true, first, script, n);
      if script[i].event.took > timing.writeTimeout then t.exit == PingTimedOut
      else if !script[i].event.ok then t.exit == PingFailed
      else s.pings + [s.clock + script[i].wait + script[i].event.took] <= t.pulse.pings
  {
    hide SceneAt;
    hide Onward;
    NextScene(timing, true, first, script, i);
    PingTaken(timing, SceneAt(timing, true, first, script, i), script[i]);
    LaterFollows(timing, true, first, script, i + 1, n);
  }

  lemma SilenceTaken(timing: HeartbeatTiming, s: Scene, moment: Moment)
    requires s.exit == Cancelled && moment.event == PickDead
    requires s.pulse.lastFrame + timing.deadAfter <= s.pulse.clock + moment.wait
    ensures Onward(timing, true, s, moment).exit == NoHeartbeat
  {
  }

  /** Once the window since the last frame is over the heartbeat arm ends the loop. */
  lemma SilenceEndsIt(timing: HeartbeatTiming, first: Scene, script: seq<Moment>, i: nat, n: nat)
    requires i < n <= |script| && script[i].event == PickDead
    requires SceneAt(timing, true, first, script, i).exit == Cancelled
    requires var s := SceneAt(timing, true, first, script, i).pulse;
      s.lastFrame + timing.deadAfter <= s.clock + script[i].wait
    ensures SceneAt(timing, true, first, script, n).exit == NoHeartbeat
  {
    hide SceneAt;
    hide Onward;
    NextScene(timing, true, first, script, i);
    SilenceTaken(timing, SceneAt(timing, true, first, script, i), script[i]);
    LaterFollows(timing, true, first, script, i + 1, n);
  }

  /** And these are the only moments that end it. */
  lemma {:induction false} CauseOfEnd(timing: HeartbeatTiming, heartbeat: bool, first: Scene, script: seq<Moment>, n: nat)
    returns (i: nat)
    requires n <= |script| && first.exit == Cancelled && SceneAt(timing, heartbeat, first, script, n).exit != Cancelled
    ensures i < n
    ensures var s, exit := SceneAt(timing, heartbeat, first, script, i), SceneAt(timing, heartbeat, first, script, n).exit;
      var now := s.pulse.clock + script[i].wait;
      && s.exit == Cancelled
      && match script[i].event
         case PickFrame =>
           if s.reading.queue == [] then s.reading.finished && exit == ReaderEnded
           else !ControlTraffic(s.reading.queue[0]) && exit == Surprised(s.reading.queue[0])
         case PickReader => s.reading.finished && exit == ReaderEnded
         case PickPing(took, ok) =>
           && heartbeat && s.pulse.lastPing + timing.pingInterval <= now
           && exit == (if took > timing.writeTimeout then PingTimedOut else PingFailed)
           && (took > timing.writeTimeout || !ok)
         case PickDead => heartbeat && s.pulse.lastFrame + timing.deadAfter <= now && exit == NoHeartbeat
         case _ => false
  {
    if SceneAt(timing, heartbeat, first, script, n - 1).exit != Cancelled {
      i := CauseOfEnd(timing, heartbeat, first, script, n - 1);
    } else {
      i := n - 1;
    }
  }

  /** How many moments picked the frame arm while the loop ran and a frame was in the channel. */
  function FramesMet(timing: HeartbeatTiming, heartbeat: bool, first: Scene, script: seq<Moment>, n: nat): nat
    requires n <= |script|
  {
    if n == 0 then 0 else
      var s := SceneAt(timing, heartbeat, first, script, n - 1);
      FramesMet(timing, heartbeat, first, script, n - 1)
      + if s.exit == Cancelled && script[n - 1].event.PickFrame? && s.reading.queue != [] then 1 else 0
  }

  lemma OneMore(timing: HeartbeatTiming, heartbeat: bool, s: Scene, moment: Moment)
    ensures |Onward(timing, heartbeat, s, moment).reading.handled|
            == |s.reading.handled| + if s.exit == Cancelled && moment.event.PickFrame? && s.reading.queue != [] then 1 else 0
  {
  }

  lemma {:induction false} HandledAreMet(timing: HeartbeatTiming, heartbeat: bool, first: Scene, script: seq<Moment>, n: nat)
    requires n <= |script|
    ensures |SceneAt(timing, heartbeat, first, script, n).reading.handled|
            == |first.reading.handled| + FramesMet(timing, heartbeat, first, script, n)
  {
    hide Onward;
    if n > 0 {
      HandledAreMet(timing, heartbeat, first, script, n - 1);
      OneMore(timing, heartbeat, SceneAt(timing, heartbeat, first, script, n - 1), script[n - 1]);
    }
  }

  /** However full the channel is, as many picks of the frame arm as it has frames empty it. */
  lemma {:induction false} ChannelIsDrained(timing: HeartbeatTiming, heartbeat: bool, first: Scene, script: seq<Moment>, n: nat)
    requires n <= |script| && n <= |first.reading.queue| && first.exit == Cancelled
    requires forall i :: 0 <= i < n ==> script[i].event == PickFrame
    requires forall i :: 0 <= i < n ==> ControlTraffic(first.reading.queue[i])
    ensures var s := SceneAt(timing, heartbeat, first, script, n);
      && s.exit == Cancelled
      && s.reading.handled == first.reading.handled + first.reading.queue[..n]
      && s.reading.queue == first.reading.queue[n..]
  {
    hide Onward;
    if n > 0 {
      ChannelIsDrained(timing, heartbeat, first, script, n - 1);
      NextScene(timing, heartbeat, first, script, n - 1);
      FrameTaken(timing, heartbeat, SceneAt(timing, heartbeat, first, script, n - 1), script[n - 1]);
      hide SceneAt;
    }
  }

  /** A frame the relay sends to an idle loop comes to be handled. */
  lemma FrameGetsThrough(timing: HeartbeatTiming, heartbeat: bool, s: Scene, m: Message, script: seq<Moment>)
    requires s.exit == Cancelled && !s.reading.finished && s.reading.hand.None? && s.reading.queue == []
    requires |script| == 3 && script[0].event == Decoded(m) && script[1].event == Pushed && script[2].event == PickFrame
    ensures var t := SceneAt(timing, heartbeat, s, script, 3);
      && t.reading.handled == s.reading.handled + [m] && t.reading.queue == []
      && (m.Open? ==> t.sessions.started == s.sessions.started + [m.sessionId])
      && t.exit == if ControlTraffic(m) then Cancelled else Surprised(m)
  {
    var one := Onward(timing, heartbeat, s, script[0]);
    var two := Onward(timing, heartbeat, one, script[1]);
    assert one.reading == Decoding(s.reading, m) && one.exit == Cancelled && one.sessions == s.sessions;
    assert two.reading == Pushing(one.reading) && two.exit == Cancelled && two.sessions == s.sessions;
    hide Onward;
    NextScene(timing, heartbeat, s, script, 0);
    NextScene(timing, heartbeat, s, script, 1);
    NextScene(timing, heartbeat, s, script, 2);
    FrameTaken(timing, heartbeat, two, script[2]);
  }

  lemma LastScene(timing: HeartbeatTiming, heartbeat: bool, reading: Reading, sessions: Sessions, start: int,
                  script: seq<Moment>)
    requires reading.handled == []
    ensures var first := FirstScene(timing, reading, sessions, start);
      var last := SceneAt(timing, heartbeat, first, script, |script|);
      && Coherent(timing, heartbeat, start, sessions.started, last)
      && last.sessions.started == sessions.started + OpensIn(last.reading.handled)
      && last.sessions.aborted == sessions.aborted
      && |last.reading.handled| == FramesMet(timing, heartbeat, first, script, |script|)
    ensures var first := FirstScene(timing, reading, sessions, start);
      forall i :: 0 <= i < |script| && script[i].event.PickDead? ==>
        var s := SceneAt(timing, heartbeat, first, script, i);
        s.exit == Cancelled && SilenceDue(timing, heartbeat, Waited(s, script[i].wait).pulse) ==>
          SceneAt(timing, heartbeat, first, script, |script|).exit == NoHeartbeat
  {
    var first := FirstScene(timing, reading, sessions, start);
    assert SceneAt(timing, heartbeat, first, script, 0) == first;
    hide SceneAt;
    SceneCoherent(timing, heartbeat, reading, sessions, start, script, |script|);
    LaterFollows(timing, heartbeat, first, script, 0, |script|);
    HandledAreMet(timing, heartbeat, first, script, |script|);
    hide Coherent;
    hide FramesMet;
    forall i | 0 <= i < |script| && script[i].event.PickDead?
      ensures var s := SceneAt(timing, heartbeat, first, script, i);
        s.exit == Cancelled && SilenceDue(timing, heartbeat, Waited(s, script[i].wait).pulse) ==>
          SceneAt(timing, heartbeat, first, script, |script|).exit == NoHeartbeat
    {
      var s := SceneAt(timing, heartbeat, first, script, i);
      if s.exit == Cancelled && SilenceDue(timing, heartbeat, Waited(s, script[i].wait).pulse) {
        SilenceEndsIt(timing, first, script, i, |script|);
      }
    }
  }

  // ---------------------------------------------------------------- the loop itself

  /** What tasks do beside the loop. */
  method Background(reader: ReaderTask, sessions: SessionSet, event: Event)
    requires reader.Valid() && sessions.Valid()
    modifies reader, sessions
    ensures reader.Valid() && sessions.Valid()
    ensures reader.Now() ==
      match event
      case Decoded(m) => Decoding(old(reader.Now()), m)
      case Pushed => Pushing(old(reader.Now()))
      case ReaderFails => Failing(old(reader.Now()))
      case _ => old(reader.Now())
    ensures sessions.Now() == if event.SessionEnds? then Ending(old(sessions.Now()), event.session) else old(sessions.Now())
  {
    match event
    case Decoded(m) => reader.Decode(m);
    case Pushed => reader.Push();
    case ReaderFails => reader.Fail();
    case SessionEnds(k) => sessions.End(k);
    case _ =>
  }

  /** The write of one Ping, within its deadline; the interval to the next one runs from its completion. */
  method WritePing(pulse: Pulse, timing: HeartbeatTiming, took: nat, ok: bool) returns (fault: Exit, after: Pulse)
    ensures fault == if took > timing.writeTimeout then PingTimedOut else if ok then Cancelled else PingFailed
    ensures after.clock == pulse.clock + if took > timing.writeTimeout then timing.writeTimeout else took
    ensures after.lastFrame == pulse.lastFrame
    ensures after.pings == if fault == Cancelled then pulse.pings + [after.clock] else pulse.pings
    ensures after.lastPing == if fault == Cancelled then after.clock else pulse.lastPing
  {
    after := pulse;
    if took > timing.writeTimeout {
      fault, after := PingTimedOut, after.(clock := after.clock + timing.writeTimeout);
    } else {
      after := after.(clock := after.clock + took);
      if ok {
        fault, after := Cancelled, after.(pings := after.pings + [after.clock], lastPing := after.clock);
      } else {
        fault := PingFailed;
      }
    }
  }

  /** The arm for a received frame. */
  method TakeFrame(reader: ReaderTask, sessions: SessionSet, before: Pulse, ghost earlier: seq<int>)
    returns (exit: Exit, pulse: Pulse, ghost times: seq<int>)
    requires reader.Valid() && sessions.Valid()
    modifies reader, sessions
    ensures reader.Valid() && sessions.Valid() && reader.consumed == old(reader.consumed)
    ensures SceneOf(reader, sessions, pulse, times, exit)
            == FrameArm(old(SceneOf(reader, sessions, before, earlier, Cancelled)))
  {
    exit, pulse, times := Cancelled, before, earlier;
    var frame := reader.Receive();
    match frame
    case Nothing =>
    case Closed => exit := ReaderEnded;
    case Frame(m) =>
      times := times + [pulse.clock];
      if m.Open? {
        pulse := pulse.(lastFrame := pulse.clock);
        sessions.Spawn(m.sessionId);
      } else if m == Pong {
        pulse := pulse.(lastFrame := pulse.clock);
      } else {
        exit := Surprised(m);
      }
  }

  /** One pass through `select!`. */
  method Arm(reader: ReaderTask, sessions: SessionSet, timing: HeartbeatTiming, heartbeat: bool, moment: Moment, before: Pulse,
             ghost earlier: seq<int>)
    returns (exit: Exit, pulse: Pulse, readerConsumed: bool, ghost times: seq<int>)
    requires reader.Valid() && sessions.Valid() && !reader.consumed
    modifies reader, sessions
    ensures reader.Valid() && sessions.Valid()
    ensures readerConsumed == reader.consumed && (exit == Cancelled ==> !readerConsumed)
    ensures SceneOf(reader, sessions, pulse, times, exit)
            == Onward(timing, heartbeat, old(SceneOf(reader, sessions, before, earlier, Cancelled)), moment)
    ensures moment.event.PickFrame? && old(reader.queue) != [] ==>
      && reader.handled == old(reader.handled) + [old(reader.queue)[0]] && reader.queue == old(reader.queue)[1..]
      && times == earlier + [before.clock + moment.wait]
    ensures moment.event.PickFrame? && old(reader.queue) == [] ==> exit == if old(reader.finished) then ReaderEnded else Cancelled
    ensures moment.event.PickReader? ==> exit == if old(reader.finished) then ReaderEnded else Cancelled
    ensures moment.event.PickPing? ==>
      if heartbeat && before.lastPing + timing.pingInterval <= before.clock + moment.wait
      then exit != Cancelled || pulse.pings == before.pings + [pulse.clock]
      else exit == Cancelled && pulse.pings == before.pings
    ensures moment.event.PickDead? ==>
      exit == if heartbeat && before.lastFrame + timing.deadAfter <= before.clock + moment.wait then NoHeartbeat else Cancelled
  {
    var event := moment.event;
    exit, pulse, readerConsumed, times := Cancelled, before.(clock := before.clock + moment.wait), false, earlier;
    match event
    case PickFrame => exit, pulse, times := TakeFrame(reader, sessions, pulse, earlier);
    case PickSession(k) =>
      if sessions.live != {} || sessions.ended != {} {
        var joined := sessions.JoinNext(k);
      }
    case PickReader =>
      readerConsumed := reader.Poll();
      if readerConsumed {
        exit := ReaderEnded;
      }
    case PickPing(took, ok) =>
      if heartbeat && pulse.clock >= pulse.lastPing + timing.pingInterval {
        exit, pulse := WritePing(pulse, timing, took, ok);
      }
    case PickDead =>
      if heartbeat && pulse.clock >= pulse.lastFrame + timing.deadAfter {
        exit := NoHeartbeat;
      }
    case _ => Background(reader, sessions, event);
  }

  /**
   The loop, from a fresh reader. It goes through the whole script unless it ends; every Open handled has
   spawned its session, in order, and nothing the loop does takes a session away; the reader's handle is
   awaited exactly once, unless the whole loop is cancelled.
   */
  method RunControlStream(reader: ReaderTask, sessions: SessionSet, timing: HeartbeatTiming, heartbeat: bool, start: int,
                          script: seq<Moment>)
    returns (exit: Exit, pulse: Pulse, ghost times: seq<int>)
    requires reader.Valid() && reader.handled == [] && !reader.consumed
    requires sessions.Valid()
    modifies reader, sessions
    ensures reader.Valid() && sessions.Valid() && reader.handled <= reader.decoded
    ensures var last := SceneAt(timing, heartbeat, old(FirstScene(timing, reader.Now(), sessions.Now(), start)), script, |script|);
      && SceneOf(reader, sessions, pulse, times, exit) ==
         (if last.exit == Cancelled then last else last.(reading := last.reading.(finished := true, consumed := true)))
      && Coherent(timing, heartbeat, start, old(sessions.started), last)
    ensures exit != Cancelled ==> reader.consumed
    ensures sessions.started == old(sessions.started) + OpensIn(reader.handled) && sessions.aborted == old(sessions.aborted)
    ensures |reader.handled|
            == FramesMet(timing, heartbeat, old(FirstScene(timing, reader.Now(), sessions.Now(), start)), script, |script|)
    ensures forall i :: 0 <= i < |script| && script[i].event.PickDead? ==>
      var s := SceneAt(timing, heartbeat, old(FirstScene(timing, reader.Now(), sessions.Now(), start)), script, i);
      s.exit == Cancelled && SilenceDue(timing, heartbeat, Waited(s, script[i].wait).pulse) ==> exit == NoHeartbeat
  {
    ghost var first := FirstScene(timing, reader.Now(), sessions.Now(), start);
    var readerConsumed := false;
    exit, pulse, times := Cancelled, Pulse([], start - timing.pingInterval, start, start), [];
    assert SceneOf(reader, sessions, pulse, times, exit) == SceneAt(timing, heartbeat, first, script, 0);
    hide Onward;
    hide SceneAt;
    hide Coherent;
    hide FramesMet;
    var i := 0;
    while i < |script| && exit == Cancelled
      invariant i <= |script| && readerConsumed == reader.consumed && (exit == Cancelled ==> !readerConsumed)
      invariant reader.Valid() && sessions.Valid()
      invariant SceneOf(reader, sessions, pulse, times, exit) == SceneAt(timing, heartbeat, first, script, i)
    {
      NextScene(timing, heartbeat, first, script, i);
      exit, pulse, readerConsumed, times := Arm(reader, sessions, timing, heartbeat, script[i], pulse, times);
      i := i + 1;
    }
    LaterFollows(timing, heartbeat, first, script, i, |script|);
    if exit != Cancelled && !readerConsumed {
      reader.Abort();
    }
    LastScene(timing, heartbeat, first.reading, first.sessions, start, script);
  }

  // ---------------------------------------------------------------- the supervisor

  const INITIAL_RECONNECT_DELAY: nat := 1
  const MAX_RECONNECT_DELAY: nat := 30

  function NextReconnectDelay(current: nat, wasConnected: bool): (d: nat) {
    if wasConnected then INITIAL_RECONNECT_DELAY
    else if 2 * current < MAX_RECONNECT_DELAY then 2 * current else MAX_RECONNECT_DELAY
  }

  /** One attempt: it fails to connect, or connects and then runs the loop; `pause` happens during the wait after it. */
  datatype Attempt = Attempt(connected: bool, heartbeat: bool, script: seq<Moment>, pause: seq<nat>)

  function Doubled(k: nat): nat {
    if k == 0 then 1 else 2 * Doubled(k - 1)
  }

  /** How many attempts in a row have failed before attempt `i`. */
  function Failures(attempts: seq<Attempt>, i: nat): nat
    requires i <= |attempts|
  {
    if i == 0 || attempts[i - 1].connected then 0 else 1 + Failures(attempts, i - 1)
  }

  /** The wait after `failures` earlier failures in a row. */
  function Backoff(failures: nat): nat {
    if Doubled(failures) < MAX_RECONNECT_DELAY then Doubled(failures) else MAX_RECONNECT_DELAY
  }

  /** One more failure doubles the delay, up to the cap. */
  lemma {:induction false} BackoffDoubles(failures: nat)
    ensures NextReconnectDelay(Backoff(failures), false) == Backoff(failures + 1)
    ensures INITIAL_RECONNECT_DELAY <= Backoff(failures) <= MAX_RECONNECT_DELAY
    ensures NextReconnectDelay(Backoff(failures), true) == INITIAL_RECONNECT_DELAY == Backoff(0)
  {
    if failures > 0 {
      BackoffDoubles(failures - 1);
    }
    assert Doubled(failures + 1) == 2 * Doubled(failures);
  }

  /** The delay the supervisor waits after attempt `i`. */
  function WaitAfter(attempts: seq<Attempt>, i: nat): nat
    requires i < |attempts|
  {
    if attempts[i].connected then INITIAL_RECONNECT_DELAY else Backoff(Failures(attempts, i))
  }

  /** What one attempt and the wait after it make of the sessions. */
  ghost function AfterAttempt(timing: HeartbeatTiming, sessions: Sessions, attempt: Attempt): Sessions {
    EndingAll(if attempt.connected then AttemptScene(timing, sessions, attempt).sessions else sessions, attempt.pause)
  }

  /** Where the control loop of an attempt ends. */
  function AttemptScene(timing: HeartbeatTiming, sessions: Sessions, attempt: Attempt): Scene {
    SceneAt(timing, attempt.heartbeat, FirstScene(timing, Reading(None, [], false, false, [], []), sessions, 0),
            attempt.script, |attempt.script|)
  }

  function EndingAll(sessions: Sessions, ends: seq<nat>): Sessions {
    if ends == [] then sessions else Ending(EndingAll(sessions, ends[..|ends| - 1]), ends[|ends| - 1])
  }

  ghost function AfterAttempts(timing: HeartbeatTiming, sessions: Sessions, attempts: seq<Attempt>, n: nat): Sessions
    requires n <= |attempts|
  {
    if n == 0 then sessions
    else AfterAttempt(timing, AfterAttempts(timing, sessions, attempts, n - 1), attempts[n - 1])
  }

  lemma {:induction false} EndingKeeps(sessions: Sessions, ends: seq<nat>)
    ensures var t := EndingAll(sessions, ends);
      && t.started == sessions.started && t.aborted == sessions.aborted && sessions.finished <= t.finished
      && sessions.live + sessions.finished == t.live + t.finished
  {
    if ends != [] {
      EndingKeeps(sessions, ends[..|ends| - 1]);
    }
  }

  /** An attempt starts a session for each Open it handles, and takes none down, whatever ends it. */
  lemma AttemptStartsItsOpens(timing: HeartbeatTiming, sessions: Sessions, attempt: Attempt)
    ensures AfterAttempt(timing, sessions, attempt).started == sessions.started +
      if attempt.connected then OpensIn(AttemptScene(timing, sessions, attempt).reading.handled) else []
    ensures AfterAttempt(timing, sessions, attempt).aborted == sessions.aborted
    ensures sessions.finished <= AfterAttempt(timing, sessions, attempt).finished
  {
    var reading := Reading(None, [], false, false, [], []);
    SceneCoherent(timing, attempt.heartbeat, reading, sessions, 0, attempt.script, |attempt.script|);
    LaterFollows(timing, attempt.heartbeat, FirstScene(timing, reading, sessions, 0), attempt.script, 0, |attempt.script|);
    hide SceneAt;
    EndingKeeps(if attempt.connected then AttemptScene(timing, sessions, attempt).sessions else sessions, attempt.pause);
  }

  /** Attempt after attempt: sessions outlive every control channel and every wait between two of them. */
  method Reconnect(sessions: SessionSet, timing: HeartbeatTiming, attempts: seq<Attempt>) returns (waits: seq<nat>)
    requires sessions.Valid()
    modifies sessions
    ensures sessions.Valid() && sessions.Now() == AfterAttempts(timing, old(sessions.Now()), attempts, |attempts|)
    ensures sessions.aborted == old(sessions.aborted) && old(sessions.started) <= sessions.started
    ensures |waits| == |attempts| && forall i :: 0 <= i < |attempts| ==> waits[i] == WaitAfter(attempts, i)
  {
    hide Backoff;
    hide NextReconnectDelay;
    hide AfterAttempt;
    BackoffDoubles(0);
    var delay := INITIAL_RECONNECT_DELAY;
    waits := [];
    for i := 0 to |attempts|
      invariant sessions.Valid() && sessions.Now() == AfterAttempts(timing, old(sessions.Now()), attempts, i)
      invariant sessions.aborted == old(sessions.aborted) && old(sessions.started) <= sessions.started
      invariant delay == Backoff(Failures(attempts, i))
      invariant |waits| == i && forall j :: 0 <= j < i ==> waits[j] == WaitAfter(attempts, j)
    {
      AttemptStartsItsOpens(timing, sessions.Now(), attempts[i]);
      RunAttempt(sessions, timing, attempts[i]);
      waits := waits + [if attempts[i].connected then INITIAL_RECONNECT_DELAY else delay];
      BackoffDoubles(Failures(attempts, i));
      delay := NextReconnectDelay(delay, attempts[i].connected);
    }
  }

  /** `run_control` and the wait after it: nothing but the Opens it handles touches the sessions. */
  method RunAttempt(sessions: SessionSet, timing: HeartbeatTiming, attempt: Attempt)
    requires sessions.Valid()
    modifies sessions
    ensures sessions.Valid() && sessions.Now() == AfterAttempt(timing, old(sessions.Now()), attempt)
  {
    if attempt.connected {
      var reader := new ReaderTask();
      var exit, pulse, times := RunControlStream(reader, sessions, timing, attempt.heartbeat, 0, attempt.script);
    }
    EndSessions(sessions, attempt.pause);
  }

  /**
   `run_until_stopped_with_timing`: only the stop takes sessions down, and then exactly those still running.
   Every other session ever started has ended by itself.
   */
  method RunUntilStopped(sessions: SessionSet, timing: HeartbeatTiming, attempts: seq<Attempt>)
    returns (waits: seq<nat>, ghost running: set<nat>)
    requires sessions.Valid()
    modifies sessions
    ensures sessions.Valid() && sessions.live == {}
    ensures sessions.started == AfterAttempts(timing, old(sessions.Now()), attempts, |attempts|).started
    ensures running == AfterAttempts(timing, old(sessions.Now()), attempts, |attempts|).live
    ensures sessions.aborted == old(sessions.aborted) + running && running !! sessions.finished
    ensures forall k :: |old(sessions.started)| <= k < |sessions.started| ==> k in sessions.finished || k in running
    ensures |waits| == |attempts| && forall i :: 0 <= i < |attempts| ==> waits[i] == WaitAfter(attempts, i)
  {
    waits := Reconnect(sessions, timing, attempts);
    running := sessions.live;
    sessions.Shutdown();
  }

  /** Sessions that end while the supervisor sleeps. */
  method EndSessions(sessions: SessionSet, ends: seq<nat>)
    requires sessions.Valid()
    modifies sessions
    ensures sessions.Valid() && sessions.Now() == EndingAll(old(sessions.Now()), ends)
  {
    for i := 0 to |ends|
      invariant sessions.Valid() && sessions.Now() == EndingAll(old(sessions.Now()), ends[..i])
    {
      assert ends[..i + 1][..i] == ends[..i];
      sessions.End(ends[i]);
    }
    assert ends[..|ends|] == ends;
  }
}
