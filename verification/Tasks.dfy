/** Spawned tasks as their owners see them: a frame reader behind a bounded channel, and a set of sessions. */
module Tasks {
  import opened Bytes
  import opened Messages

  const CONTROL_FRAME_CHANNEL_CAPACITY: nat := 16

  datatype Received = Nothing | Frame(message: Message) | Closed

  /** The frames a task holds or has queued, oldest first. */
  function InHand(hand: Option<Message>): seq<Message> {
    match hand
    case None => []
    case Some(m) => [m]
  }

  /** A reader task: the frame in its hand, its channel, its join handle, and all it has decoded and passed on. */
  datatype Reading = Reading(
    hand: Option<Message>,
    queue: seq<Message>,
    finished: bool,
    consumed: bool,
    decoded: seq<Message>,
    handled: seq<Message>)

  /** One more frame is decoded, unless the last one still waits to be sent. */
  function Decoding(r: Reading, m: Message): Reading {
    if r.finished || r.hand.Some? then r else r.(hand := Some(m), decoded := r.decoded + [m])
  }

  /** The frame in hand goes into the channel when there is room. */
  function Pushing(r: Reading): Reading {
    if r.finished || r.hand.None? || |r.queue| >= CONTROL_FRAME_CHANNEL_CAPACITY then r
    else r.(queue := r.queue + [r.hand.value], hand := None)
  }

  /** The task ends when a read fails; while it waits to send it does not read. */
  function Failing(r: Reading): Reading {
    if r.hand.Some? then r else r.(finished := true)
  }

  /** The oldest frame in the channel is received. */
  function Receiving(r: Reading): Reading {
    if r.queue == [] then r else r.(queue := r.queue[1..], handled := r.handled + [r.queue[0]])
  }

  /**
   The dedicated reader task, its channel and its join handle. The task decodes one frame, sends it into the
   channel, and only then reads on; `handled` are the frames its owner has received.
   */
  class ReaderTask {
    var hand: Option<Message>
    var queue: seq<Message>
    var finished: bool
    var consumed: bool
    ghost var decoded: seq<Message>
    ghost var handled: seq<Message>

    ghost predicate Valid()
      reads this
    {
      && decoded == handled + queue + InHand(hand)
      && |queue| <= CONTROL_FRAME_CHANNEL_CAPACITY
      && (consumed ==> finished)
    }

    ghost function Now(): Reading
      reads this
    {
      Reading(hand, queue, finished, consumed, decoded, handled)
    }

    constructor ()
      ensures Valid() && Now() == Reading(None, [], false, false, [], [])
    {
      hand, queue, finished, consumed := None, [], false, false;
      decoded, handled := [], [];
    }

    /** The task decodes a frame, when it is not still waiting to send the last one. */
    method Decode(m: Message)
      requires Valid()
      modifies this
      ensures Valid() && Now() == Decoding(old(Now()), m)
    {
      if !finished && hand.None? {
        hand := Some(m);
        decoded := decoded + [m];
      }
    }

    /** The channel has room for the frame in hand. */
    method Push()
      requires Valid()
      modifies this
      ensures Valid() && Now() == Pushing(old(Now()))
    {
      if !finished && hand.Some? && |queue| < CONTROL_FRAME_CHANNEL_CAPACITY {
        queue := queue + [hand.value];
        hand := None;
      }
    }

    /** A read fails; the task ends and its half of the channel is dropped. */
    method Fail()
      requires Valid()
      modifies this
      ensures Valid() && Now() == Failing(old(Now()))
    {
      if hand.None? {
        finished := true;
      }
    }

    /** `frame_rx.recv`: a queued frame first, the end of the channel only when it is empty. */
    method Receive() returns (frame: Received)
      requires Valid()
      modifies this
      ensures Valid() && Now() == Receiving(old(Now())) && handled <= decoded
      ensures frame == if old(queue) != [] then Frame(old(queue)[0]) else if old(finished) then Closed else Nothing
    {
      if queue != [] {
        frame := Frame(queue[0]);
        handled := handled + [queue[0]];
        queue := queue[1..];
      } else {
        frame := if finished then Closed else Nothing;
      }
    }

    /** Polling the join handle. Once it has yielded the result it must not be polled again. */
    method Poll() returns (ready: bool)
      requires Valid() && !consumed
      modifies this`consumed
      ensures Valid() && ready == finished && consumed == ready
    {
      ready := finished;
      consumed := ready;
    }

    /** `abort` and a last await of the handle. */
    method Abort()
      requires Valid() && !consumed
      modifies this`finished, this`consumed
      ensures Valid() && Now() == old(Now()).(finished := true, consumed := true)
    {
      finished := true;
      var ready := Poll();
    }
  }

  /** A writer task: what it has been sent is on the wire, lost in a write that failed, or still in its channel. */
  datatype Writing = Writing(
    queue: seq<Message>,
    finished: bool,
    consumed: bool,
    submitted: seq<Message>,
    written: seq<Message>,
    lost: seq<Message>)

  /** The oldest frame in the channel is written, or its write fails and the task ends. */
  function PuttingOut(w: Writing, ok: bool): Writing {
    if w.finished || w.queue == [] then w
    else if ok then w.(queue := w.queue[1..], written := w.written + [w.queue[0]])
    else w.(queue := w.queue[1..], finished := true, lost := [w.queue[0]])
  }

  datatype SendResult = SentOn | Full | Dropped

  /**
   The one task that writes control frames, and its channel: `submitted` is everything its owner has sent,
   `written` what has reached the wire whole, `lost` a frame whose write failed.
   */
  class WriterTask {
    var queue: seq<Message>
    var finished: bool
    var consumed: bool
    ghost var submitted: seq<Message>
    ghost var written: seq<Message>
    ghost var lost: seq<Message>

    ghost predicate Valid()
      reads this
    {
      && submitted == written + lost + queue
      && |queue| <= CONTROL_FRAME_CHANNEL_CAPACITY
      && (lost != [] ==> finished) && (consumed ==> finished)
    }

    ghost function Now(): Writing
      reads this
    {
      Writing(queue, finished, consumed, submitted, written, lost)
    }

    constructor ()
      ensures Valid() && Now() == Writing([], false, false, [], [], [])
    {
      queue, finished, consumed := [], false, false;
      submitted, written, lost := [], [], [];
    }

    /** The task takes the next frame and writes it, or fails to in time and ends. */
    method WriteNext(ok: bool)
      requires Valid()
      modifies this
      ensures Valid() && Now() == PuttingOut(old(Now()), ok)
    {
      if !finished && queue != [] {
        if ok {
          assert written + lost + queue == written + [queue[0]] + lost + queue[1..];
          written := written + [queue[0]];
        } else {
          finished, lost := true, [queue[0]];
        }
        queue := queue[1..];
      }
    }

    /** A send into the channel: it waits while the channel is full, and fails once the task is gone. */
    method TrySend(m: Message) returns (result: SendResult)
      requires Valid()
      modifies this
      ensures result == if old(finished) then Dropped
                        else if |old(queue)| < CONTROL_FRAME_CHANNEL_CAPACITY then SentOn else Full
      ensures Valid() && Now() == if result.SentOn? then old(Now()).(queue := old(queue) + [m], submitted := old(submitted) + [m])
                                  else old(Now())
    {
      if finished {
        return Dropped;
      }
      if |queue| >= CONTROL_FRAME_CHANNEL_CAPACITY {
        return Full;
      }
      queue, submitted := queue + [m], submitted + [m];
      return SentOn;
    }

    method Poll() returns (ready: bool)
      requires Valid() && !consumed
      modifies this`consumed
      ensures Valid() && ready == finished && consumed == ready
    {
      ready := finished;
      consumed := ready;
    }

    method Abort()
      requires Valid() && !consumed
      modifies this`finished, this`consumed
      ensures Valid() && Now() == old(Now()).(finished := true, consumed := true)
    {
      finished := true;
      var ready := Poll();
    }
  }

  datatype Opening = Opening(queue: seq<SessionId>, requested: seq<SessionId>, taken: seq<SessionId>)

  /** A request is queued when there is room. */
  function Asking(o: Opening, session: SessionId, capacity: nat): Opening {
    if |o.queue| < capacity then o.(queue := o.queue + [session], requested := o.requested + [session]) else o
  }

  /** The receiving end of a device's bounded queue of open requests. */
  class OpenQueue {
    const capacity: nat
    var queue: seq<SessionId>
    ghost var requested: seq<SessionId>
    ghost var taken: seq<SessionId>

    ghost predicate Valid()
      reads this
    {
      requested == taken + queue && |queue| <= capacity
    }

    ghost function Now(): Opening
      reads this
    {
      Opening(queue, requested, taken)
    }

    constructor (capacity: nat)
      ensures Valid() && Now() == Opening([], [], []) && this.capacity == capacity
    {
      this.capacity := capacity;
      queue, requested, taken := [], [], [];
    }

    /** A registered controller's send completes when there is room. */
    method Request(session: SessionId)
      requires Valid()
      modifies this
      ensures Valid() && Now() == Asking(old(Now()), session, capacity)
    {
      if |queue| < capacity {
        queue, requested := queue + [session], requested + [session];
      }
    }

    method Take() returns (session: Option<SessionId>)
      requires Valid()
      modifies this
      ensures session == if old(queue) == [] then None else Some(old(queue)[0])
      ensures Valid() && Now() == if old(queue) == [] then old(Now())
                                  else old(Now()).(queue := old(queue)[1..], taken := old(taken) + [old(queue)[0]])
    {
      session := None;
      if queue != [] {
        session := Some(queue[0]);
        taken, queue := taken + [queue[0]], queue[1..];
      }
    }
  }

  datatype Sessions = Sessions(
    live: set<nat>,
    ended: set<nat>,
    started: seq<SessionId>,
    finished: set<nat>,
    aborted: set<nat>)

  function Spawning(s: Sessions, session: SessionId): Sessions {
    s.(live := s.live + {|s.started|}, started := s.started + [session])
  }

  function Ending(s: Sessions, k: nat): Sessions {
    if k in s.live then s.(live := s.live - {k}, ended := s.ended + {k}, finished := s.finished + {k}) else s
  }

  /**
   The supervisor's `JoinSet`. Session `k` is the k-th one spawned: it runs for `started[k]` until it ends by
   itself, and its result then waits in `ended` to be joined.
   */
  class SessionSet {
    var count: nat
    var live: set<nat>
    var ended: set<nat>
    ghost var started: seq<SessionId>
    ghost var finished: set<nat>   // ended by themselves
    ghost var aborted: set<nat>    // taken down while they ran

    /** Every session started still runs, has ended by itself or has been aborted. */
    ghost predicate Valid()
      reads this
    {
      && count == |started| && ended <= finished
      && live !! finished && live !! aborted && finished !! aborted
      && forall k: nat :: k < count <==> k in live || k in finished || k in aborted
    }

    ghost function Now(): Sessions
      reads this
    {
      Sessions(live, ended, started, finished, aborted)
    }

    constructor ()
      ensures Valid() && Now() == Sessions({}, {}, [], {}, {})
    {
      count, live, ended := 0, {}, {};
      started, finished, aborted := [], {}, {};
    }

    method Spawn(session: SessionId)
      requires Valid()
      modifies this
      ensures Valid() && Now() == Spawning(old(Now()), session)
    {
      live := live + {count};
      started := started + [session];
      count := count + 1;
    }

    /** A session ends by itself: its stream or its local connection is gone. */
    method End(k: nat)
      requires Valid()
      modifies this
      ensures Valid() && Now() == Ending(old(Now()), k)
    {
      if k in live {
        live, ended := live - {k}, ended + {k};
        finished := finished + {k};
      }
    }

    /** `join_next` yields the result of a session that has ended, and nothing else leaves the set. */
    method JoinNext(k: nat) returns (joined: bool)
      requires Valid() && (live != {} || ended != {})
      modifies this`ended
      ensures Valid() && joined == (k in old(ended)) && ended == old(ended) - {k}
    {
      joined := k in ended;
      ended := ended - {k};
    }

    /** `shutdown`: every session that still runs is aborted. */
    method Shutdown()
      requires Valid()
      modifies this
      ensures Valid() && Now() == old(Now()).(live := {}, ended := {}, aborted := old(aborted) + old(live))
    {
      aborted := aborted + live;
      live, ended := {}, {};
    }
  }
}
