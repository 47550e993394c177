/** The control loop of `handle_agent` in src/server.rs, between registration and the final cleanup. */
module ServerLoop {
  import opened Bytes
  import opened Messages
  import opened Tasks

  datatype Event =
    | Decoded(message: Message)
    | Pushed
    | ReaderFails
    | WriterStep(ok: bool)
    | Requested(session: SessionId)
    | Replaced                     // a newer agent takes the shutdown sender and fires it
    | PickShutdown
    | PickOpen
    | PickFrame
    | PickReader
    | PickWriter
    | PickDead

  datatype Moment = Moment(wait: nat, event: Event)

  datatype Exit =
    | Running
    | Stalled(message: Message)    // waiting to send
    | Superseded
    | Surprised(message: Message)
    | ReaderEnded
    | WriterEnded
    | HeartbeatLost

  function PongsIn(frames: seq<Message>): nat {
    if frames == [] then 0 else
      PongsIn(frames[..|frames| - 1]) + if frames[|frames| - 1] == Pong then 1 else 0
  }

  lemma PongsSnoc(frames: seq<Message>, m: Message)
    ensures PongsIn(frames + [m]) == PongsIn(frames) + if m == Pong then 1 else 0
  {
    assert (frames + [m])[..|frames|] == frames;
  }

  lemma {:induction false} OpensOfPrefix(a: seq<Message>, b: seq<Message>)
    requires a <= b
    ensures OpensIn(a) <= OpensIn(b)
  {
    if |a| < |b| {
      OpensOfPrefix(a, b[..|b| - 1]);
    } else {
      assert a == b;
    }
  }

  /** While the loop runs: every Ping has its Pong and every request its Open. */
  ghost predicate InStep(handled: seq<Message>, submitted: seq<Message>, taken: seq<SessionId>) {
    && (forall i :: 0 <= i < |handled| ==> handled[i] == Ping)
    && (forall i :: 0 <= i < |submitted| ==> ControlTraffic(submitted[i]))
    && OpensIn(submitted) == taken && PongsIn(submitted) == |handled|
  }

  /**
   While it waits to send, all but that frame; once it has ended, at most one surprising frame more received, or
   the frame in hand lost with its writer.
   */
  ghost predicate Settled(handled: seq<Message>, submitted: seq<Message>, taken: seq<SessionId>, exit: Exit) {
    match exit
    case Stalled(m) => InStep(handled, submitted + [m], taken)
    case Surprised(m) => handled != [] && handled[|handled| - 1] == m && m != Ping && InStep(handled[..|handled| - 1], submitted, taken)
    case WriterEnded => InStep(handled, submitted, taken) || exists m: Message :: InStep(handled, submitted + [m], taken)
    case _ => InStep(handled, submitted, taken)
  }

  lemma OpenSettles(handled: seq<Message>, submitted: seq<Message>, taken: seq<SessionId>, session: SessionId)
    requires InStep(handled, submitted, taken)
    ensures InStep(handled, submitted + [Open(session)], taken + [session])
  {
    OpensSnoc(submitted, Open(session));
    PongsSnoc(submitted, Open(session));
  }

  lemma FrameSettles(handled: seq<Message>, submitted: seq<Message>, taken: seq<SessionId>, m: Message)
    requires InStep(handled, submitted, taken)
    ensures m == Ping ==> InStep(handled + [m], submitted + [Pong], taken)
    ensures m != Ping ==> Settled(handled + [m], submitted, taken, Surprised(m))
  {
    OpensSnoc(submitted, Pong);
    PongsSnoc(submitted, Pong);
    assert (handled + [m])[..|handled|] == handled;
  }

  /** Whatever the reason for the end, the Opens submitted are those taken, save perhaps the last. */
  lemma SettledOpens(handled: seq<Message>, submitted: seq<Message>, taken: seq<SessionId>, exit: Exit)
    requires Settled(handled, submitted, taken, exit)
    ensures OpensIn(submitted) <= taken && |taken| <= |OpensIn(submitted)| + 1
    ensures PongsIn(submitted) <= |handled| <= PongsIn(submitted) + 1
  {
    if !InStep(handled, submitted, taken) && !exit.Surprised? {
      var m :| InStep(handled, submitted + [m], taken);
      OpensSnoc(submitted, m);
      PongsSnoc(submitted, m);
    }
  }

  // ---------------------------------------------------------------- the loop, moment by moment

  /** The loop, its two tasks and its queue; `replaced` tells that the shutdown signal has been sent. */
  datatype Scene = Scene(
    reading: Reading,
    writing: Writing,
    opening: Opening,
    lastFrame: int,
    clock: int,
    replaced: bool,
    exit: Exit)

  /** The loop's constants: the heartbeat window, whether it applies, and the room for open requests. */
  datatype Setting = Setting(deadAfter: nat, heartbeat: bool, capacity: nat)

  predicate SilenceDue(c: Setting, s: Scene) {
    c.heartbeat && s.clock >= s.lastFrame + c.deadAfter
  }

  function Waited(s: Scene, wait: nat): Scene {
    s.(clock := s.clock + wait)
  }

  /** What the other tasks do. */
  function Meanwhile(c: Setting, s: Scene, event: Event): Scene {
    match event
    case Decoded(m) => s.(reading := Decoding(s.reading, m))
    case Pushed => s.(reading := Pushing(s.reading))
    case ReaderFails => s.(reading := Failing(s.reading))
    case WriterStep(ok) => s.(writing := PuttingOut(s.writing, ok))
    case Requested(session) => s.(opening := Asking(s.opening, session, c.capacity))
    case Replaced => s.(replaced := true)
    case _ => s
  }

  /** `writer_tx.send(..)`: at once, later, or never. */
  function Offering(s: Scene, m: Message): Scene {
    if s.writing.finished then s.(exit := WriterEnded)
    else if |s.writing.queue| < CONTROL_FRAME_CHANNEL_CAPACITY then
      s.(writing := s.writing.(queue := s.writing.queue + [m], submitted := s.writing.submitted + [m]), exit := Running)
    else s.(exit := Stalled(m))
  }

  /** An open request becomes one Open on its way to the writer. */
  function OpenArm(s: Scene): Scene {
    if s.opening.queue == [] then s
    else
      var session := s.opening.queue[0];
      Offering(s.(opening := s.opening.(queue := s.opening.queue[1..], taken := s.opening.taken + [session])), Open(session))
  }

  /** A Ping is noted and answered, anything else ends the loop. */
  function FrameArm(s: Scene): Scene {
    if s.reading.queue == [] then
      if s.reading.finished then s.(exit := ReaderEnded) else s
    else
      var m, t := s.reading.queue[0], s.(reading := Receiving(s.reading));
      if m == Ping then Offering(t.(lastFrame := s.clock), Pong) else t.(exit := Surprised(m))
  }

  /** One pass through `select!`, or, while the loop waits to send, something the other tasks do. */
  function Onward(c: Setting, before: Scene, moment: Moment): Scene {
    var s := Waited(before, moment.wait);
    match before.exit
    case Stalled(m) => Offering(Meanwhile(c, s, moment.event), m)
    case Running => (
      match moment.event
      case PickShutdown => if s.replaced then s.(exit := Superseded) else s
      case PickOpen => OpenArm(s)
      case PickFrame => FrameArm(s)
      case PickReader =>
        if s.reading.finished then s.(reading := s.reading.(consumed := true), exit := ReaderEnded) else s
      case PickWriter =>
        if s.writing.finished then s.(writing := s.writing.(consumed := true), exit := WriterEnded) else s
      case PickDead => if SilenceDue(c, s) then s.(exit := HeartbeatLost) else s
      case _ => Meanwhile(c, s, moment.event))
    case _ => before
  }

  /** The loop after the first `n` moments of a script. */
  function SceneAt(c: Setting, first: Scene, script: seq<Moment>, n: nat): Scene
    requires n <= |script|
  {
    if n == 0 then first else Onward(c, SceneAt(c, first, script, n - 1), script[n - 1])
  }

  lemma NextScene(c: Setting, first: Scene, script: seq<Moment>, i: nat)
    requires i < |script|
    ensures SceneAt(c, first, script, i + 1) == Onward(c, SceneAt(c, first, script, i), script[i])
  {
  }

  ghost function SceneOf(reader: ReaderTask, writer: WriterTask, opens: OpenQueue, lastFrame: int, clock: int,
                         replaced: bool, exit: Exit): Scene
    reads reader, writer, opens
  {
    Scene(reader.Now(), writer.Now(), opens.Now(), lastFrame, clock, replaced, exit)
  }

  // ---------------------------------------------------------------- what every moment keeps

  ghost predicate Balanced(c: Setting, s: Scene) {
    && Settled(s.reading.handled, s.writing.submitted, s.opening.taken, s.exit)
    && (s.exit.HeartbeatLost? ==> SilenceDue(c, s)) && (s.exit.Superseded? ==> s.replaced)
  }

  lemma OfferingBalanced(c: Setting, s: Scene, m: Message)
    requires InStep(s.reading.handled, s.writing.submitted + [m], s.opening.taken)
    ensures Balanced(c, Offering(s, m))
  {
    hide InStep;
    assert exists k: Message :: InStep(s.reading.handled, s.writing.submitted + [k], s.opening.taken);
  }

  lemma MeanwhileBalanced(c: Setting, s: Scene, event: Event)
    ensures var t := Meanwhile(c, s, event);
      && t.reading.handled == s.reading.handled && t.writing.submitted == s.writing.submitted
      && t.opening.taken == s.opening.taken && t.exit == s.exit && t.clock == s.clock && t.lastFrame == s.lastFrame
  {
  }

  lemma ArmBalanced(c: Setting, s: Scene, moment: Moment)
    requires Balanced(c, s) && s.exit == Running
    ensures Balanced(c, Onward(c, s, moment))
  {
    hide InStep;
    var w := Waited(s, moment.wait);
    match moment.event
    case PickOpen =>
      if w.opening.queue != [] {
        OpenSettles(w.reading.handled, w.writing.submitted, w.opening.taken, w.opening.queue[0]);
        OfferingBalanced(c, w.(opening := w.opening.(queue := w.opening.queue[1..],
                                                      taken := w.opening.taken + [w.opening.queue[0]])),
                         Open(w.opening.queue[0]));
      }
    case PickFrame =>
      if w.reading.queue != [] {
        FrameSettles(w.reading.handled, w.writing.submitted, w.opening.taken, w.reading.queue[0]);
        if w.reading.queue[0] == Ping {
          OfferingBalanced(c, w.(reading := Receiving(w.reading), lastFrame := w.clock), Pong);
        }
      }
    case PickShutdown =>
    case PickReader =>
    case PickWriter =>
    case PickDead =>
    case _ => MeanwhileBalanced(c, w, moment.event); hide Meanwhile;
  }

  lemma Balances(c: Setting, s: Scene, moment: Moment)
    requires Balanced(c, s)
    ensures Balanced(c, Onward(c, s, moment))
  {
    if s.exit == Running {
      ArmBalanced(c, s, moment);
    } else if s.exit.Stalled? {
      MeanwhileBalanced(c, Waited(s, moment.wait), moment.event);
      OfferingBalanced(c, Meanwhile(c, Waited(s, moment.wait), moment.event), s.exit.message);
      hide Meanwhile;
      hide Balanced;
      hide Offering;
    }
  }

  lemma {:induction false} SceneBalanced(c: Setting, first: Scene, script: seq<Moment>, n: nat)
    requires n <= |script| && Balanced(c, first)
    ensures Balanced(c, SceneAt(c, first, script, n))
  {
    hide Onward;
    if n > 0 {
      hide Balanced;
      SceneBalanced(c, first, script, n - 1);
      Balances(c, SceneAt(c, first, script, n - 1), script[n - 1]);
    }
  }

  // ---------------------------------------------------------------- what becomes of each moment

  predicate Over(exit: Exit) {
    !exit.Running? && !exit.Stalled?
  }

  ghost predicate Grows(s: Scene, t: Scene) {
    && s.reading.handled <= t.reading.handled && s.opening.taken <= t.opening.taken
    && s.writing.submitted <= t.writing.submitted && s.writing.written <= t.writing.written
    && s.opening.requested <= t.opening.requested && (s.replaced ==> t.replaced)
  }

  /** Nothing received, taken, submitted or written is ever taken back, and an ended loop does nothing more. */
  ghost predicate Follows(s: Scene, t: Scene) {
    Grows(s, t) && (Over(s.exit) ==> t == s)
  }

  lemma OfferingGrows(s: Scene, m: Message)
    ensures Grows(s, Offering(s, m))
  {
  }

  lemma MeanwhileGrows(c: Setting, s: Scene, event: Event)
    ensures Grows(s, Meanwhile(c, s, event))
  {
  }

  lemma ArmGrows(s: Scene)
    ensures Grows(s, OpenArm(s)) && Grows(s, FrameArm(s))
  {
    if s.opening.queue != [] {
      OfferingGrows(s.(opening := s.opening.(queue := s.opening.queue[1..], taken := s.opening.taken + [s.opening.queue[0]])),
                    Open(s.opening.queue[0]));
    }
    if s.reading.queue != [] {
      OfferingGrows(s.(reading := Receiving(s.reading), lastFrame := s.clock), Pong);
    }
    hide Offering;
  }

  lemma OnwardFollows(c: Setting, s: Scene, moment: Moment)
    ensures Follows(s, Onward(c, s, moment))
  {
    var w := Waited(s, moment.wait);
    MeanwhileGrows(c, w, moment.event);
    ArmGrows(w);
    if s.exit.Stalled? {
      OfferingGrows(Meanwhile(c, w, moment.event), s.exit.message);
    }
    hide Meanwhile;
    hide Offering;
    hide OpenArm;
    hide FrameArm;
  }

  lemma {:induction false} LaterFollows(c: Setting, first: Scene, script: seq<Moment>, i: nat, n: nat)
    requires i <= n <= |script|
    ensures Follows(SceneAt(c, first, script, i), SceneAt(c, first, script, n))
  {
    hide SceneAt;
    hide Onward;
    if i < n {
      LaterFollows(c, first, script, i, n - 1);
      NextScene(c, first, script, n - 1);
      OnwardFollows(c, SceneAt(c, first, script, n - 1), script[n - 1]);
    }
  }

  lemma RequestTaken(c: Setting, s: Scene, moment: Moment)
    requires s.exit == Running && moment.event == PickOpen && s.opening.queue != []
    ensures var t, session := Onward(c, s, moment), s.opening.queue[0];
      && t.opening.taken == s.opening.taken + [session] && t.opening.queue == s.opening.queue[1..]
      && if s.writing.finished then t.exit == WriterEnded && t.writing == s.writing
         else if |s.writing.queue| < CONTROL_FRAME_CHANNEL_CAPACITY then
           t.exit == Running && t.writing.submitted == s.writing.submitted + [Open(session)]
         else t.exit == Stalled(Open(session)) && t.writing == s.writing
  {
  }

  /** A queued request is taken when its arm is picked; its Open is then submitted, in hand, or dropped with the loop. */
  lemma RequestIsTaken(c: Setting, first: Scene, script: seq<Moment>, i: nat, n: nat)
    requires i < n <= |script| && script[i].event == PickOpen && SceneAt(c, first, script, i).exit == Running
    requires SceneAt(c, first, script, i).opening.queue != []
    ensures var s, next, t := SceneAt(c, first, script, i), SceneAt(c, first, script, i + 1), SceneAt(c, first, script, n);
      && s.opening.taken + [s.opening.queue[0]] <= t.opening.taken
      && (|| s.writing.submitted + [Open(s.opening.queue[0])] <= t.writing.submitted
          || next.exit == Stalled(Open(s.opening.queue[0])) || (s.writing.finished && t.exit == WriterEnded))
  {
    hide SceneAt;
    hide Onward;
    NextScene(c, first, script, i);
    RequestTaken(c, SceneAt(c, first, script, i), script[i]);
    LaterFollows(c, first, script, i + 1, n);
  }

  lemma FrameTaken(c: Setting, s: Scene, moment: Moment)
    requires s.exit == Running && moment.event == PickFrame && s.reading.queue != []
    ensures var t, m := Onward(c, s, moment), s.reading.queue[0];
      && t.reading.handled == s.reading.handled + [m]
      && if m != Ping then t.exit == Surprised(m)
         else
           && t.lastFrame == s.clock + moment.wait
           && if s.writing.finished then t.exit == WriterEnded
              else if |s.writing.queue| < CONTROL_FRAME_CHANNEL_CAPACITY then
                t.exit == Running && t.writing.submitted == s.writing.submitted + [Pong]
              else t.exit == Stalled(Pong) && t.writing == s.writing
  {
  }

  /** A frame in the channel is handled when its arm is picked: a Ping is answered, anything else ends the loop. */
  lemma FrameIsHandled(c: Setting, first: Scene, script: seq<Moment>, i: nat, n: nat)
    requires i < n <= |script| && script[i].event == PickFrame && SceneAt(c, first, script, i).exit == Running
    requires SceneAt(c, first, script, i).reading.queue != []
    ensures var s, next, t := SceneAt(c, first, script, i), SceneAt(c, first, script, i + 1), SceneAt(c, first, script, n);
      && s.reading.handled + [s.reading.queue[0]] <= t.reading.handled
      && if s.reading.queue[0] != Ping then t.exit == Surprised(s.reading.queue[0])
         else
           && next.lastFrame == s.clock + script[i].wait
           && (|| s.writing.submitted + [Pong] <= t.writing.submitted
               || next.exit == Stalled(Pong) || (s.writing.finished && t.exit == WriterEnded))
  {
    hide SceneAt;
    hide Onward;
    NextScene(c, first, script, i);
    FrameTaken(c, SceneAt(c, first, script, i), script[i]);
    LaterFollows(c, first, script, i + 1, n);
  }

  lemma StalledMoment(c: Setting, s: Scene, moment: Moment)
    requires s.exit.Stalled?
    ensures var t, w := Onward(c, s, moment), Meanwhile(c, Waited(s, moment.wait), moment.event).writing;
      if w.finished then t.exit == WriterEnded && t.writing.submitted == s.writing.submitted
      else if |w.queue| < CONTROL_FRAME_CHANNEL_CAPACITY then
        t.exit == Running && t.writing.submitted == s.writing.submitted + [s.exit.message]
      else t.exit == s.exit && t.writing.submitted == s.writing.submitted
  {
  }

  /** A loop that waits to send has sent its frame as soon as the writer has put out one of those before it. */
  lemma RoomIsUsed(c: Setting, first: Scene, script: seq<Moment>, i: nat, n: nat)
    requires i < n <= |script| && script[i].event == WriterStep(true)
    requires var s := SceneAt(c, first, script, i);
      s.exit.Stalled? && !s.writing.finished && 0 < |s.writing.queue| <= CONTROL_FRAME_CHANNEL_CAPACITY
    ensures var s, t := SceneAt(c, first, script, i), SceneAt(c, first, script, n);
      && SceneAt(c, first, script, i + 1).exit == Running
      && s.writing.submitted + [s.exit.message] <= t.writing.submitted
      && s.writing.written + [s.writing.queue[0]] <= t.writing.written
  {
    var s := SceneAt(c, first, script, i);
    hide SceneAt;
    NextScene(c, first, script, i);
    assert Onward(c, s, script[i]).writing.written == s.writing.written + [s.writing.queue[0]];
    hide Onward;
    StalledMoment(c, s, script[i]);
    LaterFollows(c, first, script, i + 1, n);
  }

  /** What ends the loop at one moment, and what it ends with. */
  ghost predicate Ends(c: Setting, s: Scene, moment: Moment, exit: Exit) {
    && s.exit == Running
    && match moment.event
       case PickShutdown => s.replaced && exit == Superseded
       case PickReader => s.reading.finished && exit == ReaderEnded
       case PickWriter => s.writing.finished && exit == WriterEnded
       case PickDead => c.heartbeat && s.clock + moment.wait >= s.lastFrame + c.deadAfter && exit == HeartbeatLost
       case PickOpen => s.opening.queue != [] && s.writing.finished && exit == WriterEnded
       case PickFrame =>
         if s.reading.queue == [] then s.reading.finished && exit == ReaderEnded
         else if s.reading.queue[0] != Ping then exit == Surprised(s.reading.queue[0])
         else s.writing.finished && exit == WriterEnded
       case _ => false
  }

  lemma EndsAtOnce(c: Setting, s: Scene, moment: Moment, exit: Exit)
    requires !s.exit.Stalled? && !Over(s.exit) && Over(exit)
    ensures Onward(c, s, moment).exit == exit <==> Ends(c, s, moment, exit)
  {
  }

  /** A shutdown that was signalled, a dead task or a silent window ends the loop when its arm is picked. */
  lemma EndIsNoticed(c: Setting, first: Scene, script: seq<Moment>, i: nat, n: nat, exit: Exit)
    requires i < n <= |script| && Over(exit) && Ends(c, SceneAt(c, first, script, i), script[i], exit)
    ensures SceneAt(c, first, script, n).exit == exit
  {
    hide SceneAt;
    hide Onward;
    NextScene(c, first, script, i);
    EndsAtOnce(c, SceneAt(c, first, script, i), script[i], exit);
    LaterFollows(c, first, script, i + 1, n);
  }

  /** And nothing else ends it, save the end of the writer while a frame waits to be sent. */
  lemma {:induction false} CauseOfEnd(c: Setting, first: Scene, script: seq<Moment>, n: nat) returns (i: nat)
    requires n <= |script| && !Over(first.exit) && Over(SceneAt(c, first, script, n).exit)
    ensures i < n
    ensures var s, t := SceneAt(c, first, script, i), SceneAt(c, first, script, n);
      || Ends(c, s, script[i], t.exit)
      || (s.exit.Stalled? && t.exit == WriterEnded && t.writing.finished)
  {
    hide Ends;
    if Over(SceneAt(c, first, script, n - 1).exit) {
      i := CauseOfEnd(c, first, script, n - 1);
      LaterFollows(c, first, script, n - 1, n);
    } else {
      i := n - 1;
      hide SceneAt;
      NextScene(c, first, script, i);
      var s := SceneAt(c, first, script, i);
      if s.exit == Running {
        hide Onward;
        EndsAtOnce(c, s, script[i], SceneAt(c, first, script, n).exit);
      }
    }
  }

  /** How many moments picked a frame, or a request, while the loop selected and one was there. */
  function FramesMet(c: Setting, first: Scene, script: seq<Moment>, n: nat): nat
    requires n <= |script|
  {
    if n == 0 then 0 else
      var s := SceneAt(c, first, script, n - 1);
      FramesMet(c, first, script, n - 1)
      + if s.exit == Running && script[n - 1].event == PickFrame && s.reading.queue != [] then 1 else 0
  }

  function RequestsMet(c: Setting, first: Scene, script: seq<Moment>, n: nat): nat
    requires n <= |script|
  {
    if n == 0 then 0 else
      var s := SceneAt(c, first, script, n - 1);
      RequestsMet(c, first, script, n - 1)
      + if s.exit == Running && script[n - 1].event == PickOpen && s.opening.queue != [] then 1 else 0
  }

  lemma OneMore(c: Setting, s: Scene, moment: Moment)
    ensures var t := Onward(c, s, moment);
      && |t.reading.handled|
         == |s.reading.handled| + (if s.exit == Running && moment.event == PickFrame && s.reading.queue != [] then 1 else 0)
      && |t.opening.taken|
         == |s.opening.taken| + (if s.exit == Running && moment.event == PickOpen && s.opening.queue != [] then 1 else 0)
  {
  }

  lemma {:induction false} AllMet(c: Setting, first: Scene, script: seq<Moment>, n: nat)
    requires n <= |script|
    ensures var s := SceneAt(c, first, script, n);
      && |s.reading.handled| == |first.reading.handled| + FramesMet(c, first, script, n)
      && |s.opening.taken| == |first.opening.taken| + RequestsMet(c, first, script, n)
  {
    hide Onward;
    if n > 0 {
      AllMet(c, first, script, n - 1);
      OneMore(c, SceneAt(c, first, script, n - 1), script[n - 1]);
    }
  }

  /** A Ping that reaches an idle loop is answered on the wire, and a request becomes an Open there. */
  lemma PingGetsThrough(c: Setting, s: Scene, script: seq<Moment>)
    requires s.exit == Running && !s.reading.finished && s.reading.hand.None? && s.reading.queue == []
    requires !s.writing.finished && s.writing.queue == []
    requires |script| == 4 && script[0].event == Decoded(Ping) && script[1].event == Pushed
    requires script[2].event == PickFrame && script[3].event == WriterStep(true)
    ensures SceneAt(c, s, script, 4).exit == Running
    ensures SceneAt(c, s, script, 4).writing.written == s.writing.written + [Pong]
  {
    var one := Onward(c, s, script[0]);
    var two := Onward(c, one, script[1]);
    assert one.reading == Decoding(s.reading, Ping) && one.exit == Running && one.writing == s.writing;
    assert two.reading.queue == [Ping] && two.exit == Running && two.writing == s.writing;
    var three := Onward(c, two, script[2]);
    assert three.exit == Running && three.writing.queue == [Pong] && !three.writing.finished;
    assert three.writing.written == s.writing.written;
    assert Onward(c, three, script[3]).writing == PuttingOut(three.writing, true);
    assert Onward(c, three, script[3]).exit == Running;
    hide Onward;
    FourScenes(c, s, script);
  }

  lemma RequestGetsThrough(c: Setting, s: Scene, session: SessionId, script: seq<Moment>)
    requires s.exit == Running && s.opening.queue == [] && c.capacity > 0
    requires !s.writing.finished && s.writing.queue == []
    requires |script| == 4 && script[0].event == Requested(session) && script[1].event == PickOpen
    requires script[2].event == WriterStep(true) && script[3].event == Pushed
    ensures SceneAt(c, s, script, 4).exit == Running
    ensures SceneAt(c, s, script, 4).writing.written == s.writing.written + [Open(session)]
  {
    var one := Onward(c, s, script[0]);
    assert one.opening == Asking(s.opening, session, c.capacity) && one.exit == Running && one.writing == s.writing;
    var two := Onward(c, one, script[1]);
    assert two.exit == Running && two.writing.queue == [Open(session)] && !two.writing.finished;
    assert two.writing.written == s.writing.written;
    var three := Onward(c, two, script[2]);
    assert three.writing == PuttingOut(two.writing, true) && three.exit == Running;
    assert Onward(c, three, script[3]).writing == three.writing && Onward(c, three, script[3]).exit == Running;
    hide Onward;
    FourScenes(c, s, script);
  }

  lemma FourScenes(c: Setting, s: Scene, script: seq<Moment>)
    requires |script| == 4
    ensures SceneAt(c, s, script, 4)
            == Onward(c, Onward(c, Onward(c, Onward(c, s, script[0]), script[1]), script[2]), script[3])
  {
    hide Onward;
    NextScene(c, s, script, 0);
    NextScene(c, s, script, 1);
    NextScene(c, s, script, 2);
    NextScene(c, s, script, 3);
  }

  lemma LastScene(c: Setting, first: Scene, script: seq<Moment>)
    requires first.reading.handled == [] && first.writing.submitted == [] && first.opening.taken == []
    requires first.exit == Running
    ensures var last := SceneAt(c, first, script, |script|);
      && Settled(last.reading.handled, last.writing.submitted, last.opening.taken, last.exit)
      && (last.exit.HeartbeatLost? ==> c.heartbeat && last.clock >= last.lastFrame + c.deadAfter)
      && |last.reading.handled| == FramesMet(c, first, script, |script|)
      && |last.opening.taken| == RequestsMet(c, first, script, |script|)
      && OpensIn(last.writing.submitted) <= last.opening.taken
  {
    assert Balanced(c, first);
    SceneBalanced(c, first, script, |script|);
    AllMet(c, first, script, |script|);
    hide SceneAt;
    var last := SceneAt(c, first, script, |script|);
    SettledOpens(last.reading.handled, last.writing.submitted, last.opening.taken, last.exit);
  }

  // ---------------------------------------------------------------- the loop itself

  /** What tasks do beside the loop, a newer agent's signal included. */
  method Background(reader: ReaderTask, writer: WriterTask, opens: OpenQueue, event: Event, wasReplaced: bool,
                    ghost c: Setting, ghost lastFrame: int, ghost clock: int, ghost exit: Exit)
    returns (replaced: bool)
    requires reader.Valid() && writer.Valid() && opens.Valid() && c.capacity == opens.capacity
    modifies reader, writer, opens
    ensures reader.Valid() && writer.Valid() && opens.Valid()
    ensures SceneOf(reader, writer, opens, lastFrame, clock, replaced, exit)
            == Meanwhile(c, old(SceneOf(reader, writer, opens, lastFrame, clock, wasReplaced, exit)), event)
    ensures reader.consumed == old(reader.consumed) && writer.consumed == old(writer.consumed)
  {
    replaced := wasReplaced;
    match event
    case Decoded(m) => reader.Decode(m);
    case Pushed => reader.Push();
    case ReaderFails => reader.Fail();
    case WriterStep(ok) => writer.WriteNext(ok);
    case Requested(session) => opens.Request(session);
    case Replaced => replaced := true;
    case _ =>
  }

  /** One attempt to send. */
  method Offer(writer: WriterTask, m: Message, ghost s: Scene) returns (result: SendResult)
    requires writer.Valid() && s.writing == writer.Now()
    modifies writer
    ensures writer.Valid() && writer.consumed == old(writer.consumed)
    ensures Offering(s, m) == s.(writing := writer.Now(), exit := AfterSend(result, m))
  {
    result := writer.TrySend(m);
  }

  lemma StillStalled(c: Setting, s: Scene, moment: Moment)
    requires s.exit.Stalled?
    ensures Onward(c, s, moment) == Offering(Meanwhile(c, Waited(s, moment.wait), moment.event), s.exit.message)
  {
    hide Meanwhile;
    hide Offering;
  }

  /** A moment with the channel full. */
  method WaitToSend(reader: ReaderTask, writer: WriterTask, opens: OpenQueue, moment: Moment, m: Message, at: int,
                    wasReplaced: bool, ghost c: Setting, ghost lastFrame: int)
    returns (result: SendResult, clock: int, replaced: bool)
    requires reader.Valid() && writer.Valid() && opens.Valid() && c.capacity == opens.capacity
    modifies reader, writer, opens
    ensures reader.Valid() && writer.Valid() && opens.Valid()
    ensures SceneOf(reader, writer, opens, lastFrame, clock, replaced, AfterSend(result, m))
            == Onward(c, old(SceneOf(reader, writer, opens, lastFrame, at, wasReplaced, Stalled(m))), moment)
    ensures reader.consumed == old(reader.consumed) && writer.consumed == old(writer.consumed)
  {
    StillStalled(c, SceneOf(reader, writer, opens, lastFrame, at, wasReplaced, Stalled(m)), moment);
    hide Meanwhile;
    hide Offering;
    hide Onward;
    clock := at + moment.wait;
    replaced := Background(reader, writer, opens, moment.event, wasReplaced, c, lastFrame, clock, Stalled(m));
    result := Offer(writer, m, SceneOf(reader, writer, opens, lastFrame, clock, replaced, Stalled(m)));
  }

  /** `writer_tx.send(..).await`: while the channel is full only the other tasks go on. */
  method Submit(reader: ReaderTask, writer: WriterTask, opens: OpenQueue, script: seq<Moment>, from: nat, m: Message,
                at: int, wasReplaced: bool, ghost c: Setting, ghost first: Scene, ghost lastFrame: int)
    returns (exit: Exit, next: nat, clock: int, replaced: bool)
    requires reader.Valid() && writer.Valid() && opens.Valid() && from <= |script| && c.capacity == opens.capacity
    requires SceneAt(c, first, script, from)
             == Offering(SceneOf(reader, writer, opens, lastFrame, at, wasReplaced, Running), m)
    modifies reader, writer, opens
    ensures reader.Valid() && writer.Valid() && opens.Valid() && from <= next <= |script|
    ensures SceneAt(c, first, script, next) == SceneOf(reader, writer, opens, lastFrame, clock, replaced, exit)
    ensures exit.Running? || exit.WriterEnded? || (exit == Stalled(m) && next == |script|)
    ensures reader.consumed == old(reader.consumed) && writer.consumed == old(writer.consumed)
  {
    hide SceneAt;
    hide Meanwhile;
    hide Onward;
    next, clock, replaced := from, at, wasReplaced;
    var result := writer.TrySend(m);
    while result.Full? && next < |script|
      invariant reader.Valid() && writer.Valid() && opens.Valid() && from <= next <= |script|
      invariant SceneAt(c, first, script, next)
                == SceneOf(reader, writer, opens, lastFrame, clock, replaced, AfterSend(result, m))
      invariant reader.consumed == old(reader.consumed) && writer.consumed == old(writer.consumed)
    {
      NextScene(c, first, script, next);
      result, clock, replaced :=
        WaitToSend(reader, writer, opens, script[next], m, clock, replaced, c, lastFrame);
      next := next + 1;
    }
    exit := AfterSend(result, m);
  }

  /** What an attempt to send makes of the loop. */
  function AfterSend(result: SendResult, m: Message): Exit {
    match result
    case SentOn => Running
    case Full => Stalled(m)
    case Dropped => WriterEnded
  }

  /** The arm for an open request: one Open on its way to the writer. */
  method ForwardOpen(reader: ReaderTask, writer: WriterTask, opens: OpenQueue, script: seq<Moment>, from: nat,
                     at: int, wasReplaced: bool, ghost c: Setting, ghost first: Scene, ghost lastFrame: int)
    returns (exit: Exit, next: nat, clock: int, replaced: bool)
    requires reader.Valid() && writer.Valid() && opens.Valid() && from <= |script| && c.capacity == opens.capacity
    requires SceneAt(c, first, script, from)
             == OpenArm(SceneOf(reader, writer, opens, lastFrame, at, wasReplaced, Running))
    modifies reader, writer, opens
    ensures reader.Valid() && writer.Valid() && opens.Valid() && from <= next <= |script|
    ensures SceneAt(c, first, script, next) == SceneOf(reader, writer, opens, lastFrame, clock, replaced, exit)
    ensures exit.Running? || exit.WriterEnded? || (exit.Stalled? && next == |script|)
    ensures reader.consumed == old(reader.consumed) && writer.consumed == old(writer.consumed)
  {
    hide SceneAt;
    exit, next, clock, replaced := Running, from, at, wasReplaced;
    var request := opens.Take();
    if request.Some? {
      exit, next, clock, replaced :=
        Submit(reader, writer, opens, script, next, Open(request.value), clock, replaced, c, first, lastFrame);
    }
  }

  /** The arm for a received frame: a Ping is answered, anything else ends the loop. */
  method AnswerFrame(reader: ReaderTask, writer: WriterTask, opens: OpenQueue, script: seq<Moment>, from: nat,
                     frameAt: int, at: int, wasReplaced: bool, ghost c: Setting, ghost first: Scene)
    returns (exit: Exit, next: nat, lastFrame: int, clock: int, replaced: bool)
    requires reader.Valid() && writer.Valid() && opens.Valid() && from <= |script| && c.capacity == opens.capacity
    requires SceneAt(c, first, script, from) == FrameArm(SceneOf(reader, writer, opens, frameAt, at, wasReplaced, Running))
    modifies reader, writer, opens
    ensures reader.Valid() && writer.Valid() && opens.Valid() && from <= next <= |script|
    ensures SceneAt(c, first, script, next) == SceneOf(reader, writer, opens, lastFrame, clock, replaced, exit)
    ensures exit.Stalled? ==> next == |script|
    ensures reader.consumed == old(reader.consumed) && writer.consumed == old(writer.consumed)
    ensures lastFrame == if old(reader.queue) != [] && old(reader.queue)[0] == Ping then at else frameAt
  {
    hide SceneAt;
    exit, next, lastFrame, clock, replaced := Running, from, frameAt, at, wasReplaced;
    var frame := reader.Receive();
    match frame
    case Nothing =>
    case Closed => exit := ReaderEnded;
    case Frame(m) =>
      if m == Ping {
        lastFrame := clock;
        exit, next, clock, replaced :=
          Submit(reader, writer, opens, script, next, Pong, clock, replaced, c, first, lastFrame);
      } else {
        exit := Surprised(m);
      }
  }

  lemma {:induction false} WaitsOrSends(c: Setting, first: Scene, script: seq<Moment>, i: nat, n: nat)
    requires i <= n <= |script| && SceneAt(c, first, script, i).exit.Stalled?
    ensures var s, t := SceneAt(c, first, script, i), SceneAt(c, first, script, n);
      || (t.exit == s.exit && t.writing.submitted == s.writing.submitted)
      || s.writing.submitted + [s.exit.message] <= t.writing.submitted
      || t.exit == WriterEnded
  {
    hide SceneAt;
    hide Onward;
    if i < n {
      WaitsOrSends(c, first, script, i, n - 1);
      NextScene(c, first, script, n - 1);
      LaterFollows(c, first, script, n - 1, n);
      if SceneAt(c, first, script, n - 1).exit.Stalled? {
        StalledMoment(c, SceneAt(c, first, script, n - 1), script[n - 1]);
      }
    }
  }

  /** An Open or a Pong in hand is submitted by the time the loop selects again. */
  lemma ArmDone(c: Setting, first: Scene, script: seq<Moment>, from: nat, next: nat)
    requires from < next <= |script| && SceneAt(c, first, script, from).exit == Running
    ensures var s, t := SceneAt(c, first, script, from), SceneAt(c, first, script, next);
      && (script[from].event.PickOpen? && s.opening.queue != [] ==>
            && s.opening.taken + [s.opening.queue[0]] <= t.opening.taken
            && (t.exit.Running? ==> s.writing.submitted + [Open(s.opening.queue[0])] <= t.writing.submitted))
      && (script[from].event.PickFrame? && s.reading.queue != [] ==>
            && s.reading.handled + [s.reading.queue[0]] <= t.reading.handled
            && (t.exit.Running? ==>
                  && s.reading.queue[0] == Ping && s.writing.submitted + [Pong] <= t.writing.submitted))
  {
    hide SceneAt;
    hide Onward;
    NextScene(c, first, script, from);
    var s := SceneAt(c, first, script, from);
    LaterFollows(c, first, script, from + 1, next);
    if SceneAt(c, first, script, from + 1).exit.Stalled? {
      WaitsOrSends(c, first, script, from + 1, next);
    }
    if script[from].event == PickOpen && s.opening.queue != [] {
      RequestTaken(c, s, script[from]);
    } else if script[from].event == PickFrame && s.reading.queue != [] {
      FrameTaken(c, s, script[from]);
    }
  }

  lemma EndNoticed(c: Setting, s: Scene, moment: Moment)
    requires s.exit == Running
    ensures var exit := Onward(c, s, moment).exit;
      match moment.event
      case PickShutdown => exit == if s.replaced then Superseded else Running
      case PickReader => exit == if s.reading.finished then ReaderEnded else Running
      case PickWriter => exit == if s.writing.finished then WriterEnded else Running
      case PickDead =>
        exit == if c.heartbeat && s.clock + moment.wait >= s.lastFrame + c.deadAfter then HeartbeatLost else Running
      case _ => true
  {
  }

  /** The arm picked, and the wait to send that it may end in. */
  method Pick(reader: ReaderTask, writer: WriterTask, opens: OpenQueue, deadAfter: nat, heartbeat: bool,
             script: seq<Moment>, from: nat, frameAt: int, before: int, wasReplaced: bool, ghost first: Scene)
    returns (exit: Exit, next: nat, lastFrame: int, clock: int, replaced: bool, readerConsumed: bool, writerConsumed: bool)
    requires reader.Valid() && writer.Valid() && opens.Valid() && from < |script|
    requires !reader.consumed && !writer.consumed
    requires SceneAt(Setting(deadAfter, heartbeat, opens.capacity), first, script, from)
             == SceneOf(reader, writer, opens, frameAt, before, wasReplaced, Running)
    modifies reader, writer, opens
    ensures reader.Valid() && writer.Valid() && opens.Valid() && from < next <= |script|
    ensures SceneAt(Setting(deadAfter, heartbeat, opens.capacity), first, script, next)
            == SceneOf(reader, writer, opens, lastFrame, clock, replaced, exit)
    ensures readerConsumed == reader.consumed && writerConsumed == writer.consumed
    ensures exit.Running? || exit.Stalled? ==> !readerConsumed && !writerConsumed
    ensures exit.Stalled? ==> next == |script|
    ensures !script[from].event.PickOpen? && !script[from].event.PickFrame? ==> next == from + 1
    ensures script[from].event.PickFrame? && old(reader.queue) != [] && old(reader.queue)[0] == Ping ==>
      lastFrame == before + script[from].wait
  {
    var event := script[from].event;
    ghost var c := Setting(deadAfter, heartbeat, opens.capacity);
    ghost var was := SceneAt(c, first, script, from);
    NextScene(c, first, script, from);
    hide SceneAt;
    hide Meanwhile;
    hide OpenArm;
    hide FrameArm;
    exit, next, lastFrame, clock, replaced := Running, from + 1, frameAt, before + script[from].wait, wasReplaced;
    readerConsumed, writerConsumed := false, false;
    match event
    case PickShutdown =>
      if replaced {
        exit := Superseded;
      }
    case PickOpen =>
      exit, next, clock, replaced :=
        ForwardOpen(reader, writer, opens, script, next, clock, replaced, c, first, lastFrame);
    case PickFrame =>
      exit, next, lastFrame, clock, replaced :=
        AnswerFrame(reader, writer, opens, script, next, lastFrame, clock, replaced, c, first);
    case PickReader =>
      readerConsumed := reader.Poll();
      exit := if readerConsumed then ReaderEnded else Running;
    case PickWriter =>
      writerConsumed := writer.Poll();
      exit := if writerConsumed then WriterEnded else Running;
    case PickDead =>
      if heartbeat && clock >= lastFrame + deadAfter {
        exit := HeartbeatLost;
      }
    case _ =>
      replaced := Background(reader, writer, opens, event, replaced, c, lastFrame, clock, Running);
  }

  /** One pass through `select!`, and the wait to send that it may end in. */
  method Arm(reader: ReaderTask, writer: WriterTask, opens: OpenQueue, deadAfter: nat, heartbeat: bool,
             script: seq<Moment>, from: nat, frameAt: int, before: int, wasReplaced: bool, ghost first: Scene)
    returns (exit: Exit, next: nat, lastFrame: int, clock: int, replaced: bool, readerConsumed: bool, writerConsumed: bool)
    requires reader.Valid() && writer.Valid() && opens.Valid() && from < |script|
    requires !reader.consumed && !writer.consumed
    requires SceneAt(Setting(deadAfter, heartbeat, opens.capacity), first, script, from)
             == SceneOf(reader, writer, opens, frameAt, before, wasReplaced, Running)
    modifies reader, writer, opens
    ensures reader.Valid() && writer.Valid() && opens.Valid() && from < next <= |script|
    ensures SceneAt(Setting(deadAfter, heartbeat, opens.capacity), first, script, next)
            == SceneOf(reader, writer, opens, lastFrame, clock, replaced, exit)
    ensures readerConsumed == reader.consumed && writerConsumed == writer.consumed
    ensures exit.Running? || exit.Stalled? ==> !readerConsumed && !writerConsumed
    ensures exit.Stalled? ==> next == |script|
    ensures script[from].event.PickShutdown? ==> exit == if wasReplaced then Superseded else Running
    ensures script[from].event.PickReader? ==> exit == if old(reader.finished) then ReaderEnded else Running
    ensures script[from].event.PickWriter? ==> exit == if old(writer.finished) then WriterEnded else Running
    ensures script[from].event.PickDead? ==>
      exit == if heartbeat && before + script[from].wait >= frameAt + deadAfter then HeartbeatLost else Running
    ensures script[from].event.PickOpen? && old(opens.queue) != [] ==>
      && old(opens.taken) + [old(opens.queue)[0]] <= opens.taken
      && (exit.Running? ==> old(writer.submitted) + [Open(old(opens.queue)[0])] <= writer.submitted)
    ensures script[from].event.PickFrame? && old(reader.queue) != [] ==>
      && old(reader.handled) + [old(reader.queue)[0]] <= reader.handled
      && (exit.Running? ==>
            && old(reader.queue)[0] == Ping && old(writer.submitted) + [Pong] <= writer.submitted
            && lastFrame == before + script[from].wait)
  {
    ghost var c := Setting(deadAfter, heartbeat, opens.capacity);
    ghost var was := SceneAt(c, first, script, from);
    hide SceneAt;
    hide Onward;
    exit, next, lastFrame, clock, replaced, readerConsumed, writerConsumed :=
      Pick(reader, writer, opens, deadAfter, heartbeat, script, from, frameAt, before, wasReplaced, first);
    NextScene(c, first, script, from);
    EndNoticed(c, was, script[from]);
    ArmDone(c, first, script, from, next);
  }

  /** The join handle of each task is awaited, unless that is how the loop ended. */
  method StopTasks(reader: ReaderTask, writer: WriterTask, readerConsumed: bool, writerConsumed: bool)
    requires reader.Valid() && writer.Valid() && readerConsumed == reader.consumed && writerConsumed == writer.consumed
    modifies reader, writer
    ensures reader.Valid() && reader.Now() == old(reader.Now()).(finished := true, consumed := true)
    ensures writer.Valid() && writer.Now() == old(writer.Now()).(finished := true, consumed := true)
  {
    if !readerConsumed {
      reader.Abort();
    }
    if !writerConsumed {
      writer.Abort();
    }
  }

  /** The loop over a whole script. */
  method Loop(reader: ReaderTask, writer: WriterTask, opens: OpenQueue, deadAfter: nat, heartbeat: bool, start: int,
              script: seq<Moment>)
    returns (exit: Exit, lastFrame: int, clock: int, replaced: bool, readerConsumed: bool, writerConsumed: bool)
    requires reader.Valid() && writer.Valid() && opens.Valid() && !reader.consumed && !writer.consumed
    modifies reader, writer, opens
    ensures reader.Valid() && writer.Valid() && opens.Valid()
    ensures readerConsumed == reader.consumed && writerConsumed == writer.consumed
    ensures SceneOf(reader, writer, opens, lastFrame, clock, replaced, exit)
            == SceneAt(Setting(deadAfter, heartbeat, opens.capacity),
                       old(SceneOf(reader, writer, opens, start, start, false, Running)), script, |script|)
  {
    ghost var c := Setting(deadAfter, heartbeat, opens.capacity);
    ghost var first := SceneOf(reader, writer, opens, start, start, false, Running);
    assert SceneAt(c, first, script, 0) == first;
    hide SceneAt;
    hide Onward;
    replaced, readerConsumed, writerConsumed := false, false, false;
    exit, lastFrame, clock := Running, start, start;
    var i := 0;
    while i < |script| && exit.Running?
      invariant i <= |script| && readerConsumed == reader.consumed && writerConsumed == writer.consumed
      invariant reader.Valid() && writer.Valid() && opens.Valid()
      invariant SceneAt(c, first, script, i) == SceneOf(reader, writer, opens, lastFrame, clock, replaced, exit)
      invariant exit.Running? || exit.Stalled? ==> !readerConsumed && !writerConsumed
      invariant exit.Stalled? ==> i == |script|
    {
      exit, i, lastFrame, clock, replaced, readerConsumed, writerConsumed :=
        Arm(reader, writer, opens, deadAfter, heartbeat, script, i, lastFrame, clock, replaced, first);
    }
    LaterFollows(c, first, script, i, |script|);
  }

  /**
   The loop, over fresh tasks. What reaches the wire is a prefix of what was submitted, the Opens in it are a
   FIFO prefix of the requests queued on this generation, Pings and Pongs go one to one, and each of the two
   join handles is awaited exactly once.
   */
  method Serve(reader: ReaderTask, writer: WriterTask, opens: OpenQueue, deadAfter: nat, heartbeat: bool, start: int,
               script: seq<Moment>)
    returns (exit: Exit, lastFrame: int, clock: int, ghost first: Scene)
    requires reader.Valid() && writer.Valid() && opens.Valid() && !reader.consumed && !writer.consumed
    requires reader.handled == [] && writer.submitted == [] && opens.taken == []
    modifies reader, writer, opens
    ensures reader.Valid() && writer.Valid() && opens.Valid()
    ensures first == old(SceneOf(reader, writer, opens, start, start, false, Running))
    ensures var last := SceneAt(Setting(deadAfter, heartbeat, opens.capacity), first, script, |script|);
      && last.exit == exit && last.opening == opens.Now() && last.lastFrame == lastFrame && last.clock == clock
      && reader.Now() == (if Over(exit) then last.reading.(finished := true, consumed := true) else last.reading)
      && writer.Now() == (if Over(exit) then last.writing.(finished := true, consumed := true) else last.writing)
    ensures Settled(reader.handled, writer.submitted, opens.taken, exit)
    ensures writer.written <= writer.submitted && OpensIn(writer.written) <= opens.requested
    ensures reader.handled <= reader.decoded
    ensures exit.HeartbeatLost? ==> heartbeat && clock >= lastFrame + deadAfter
    ensures |reader.handled| == FramesMet(Setting(deadAfter, heartbeat, opens.capacity), first, script, |script|)
    ensures |opens.taken| == RequestsMet(Setting(deadAfter, heartbeat, opens.capacity), first, script, |script|)
  {
    first := SceneOf(reader, writer, opens, start, start, false, Running);
    ghost var c := Setting(deadAfter, heartbeat, opens.capacity);
    LastScene(c, first, script);
    hide SceneAt;
    hide Settled;
    hide FramesMet;
    hide RequestsMet;
    hide Onward;
    hide OpensIn;
    var replaced, readerConsumed, writerConsumed;
    exit, lastFrame, clock, replaced, readerConsumed, writerConsumed :=
      Loop(reader, writer, opens, deadAfter, heartbeat, start, script);
    if !exit.Running? && !exit.Stalled? {
      StopTasks(reader, writer, readerConsumed, writerConsumed);
    }
    OpensOfPrefix(writer.written, writer.submitted);
  }
}
