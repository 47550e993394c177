/** One whole session on the relay, from three connections to a bridge: the states the theorems speak of exist. */
module RelayExample {
  import opened Bytes
  import opened Messages
  import Auth
  import opened Relay
  import opened RelayTheorems

  const DEVICE: DeviceId := "pc"
  const SESSION: SessionId := "s"

  function Key(b: byte): Token {
    seq(Auth.MIN_TOKEN_BYTES, i => b)
  }

  function Tokens(): Auth.Snapshot {
    Auth.Snapshot(Key(1), map[DEVICE := Key(2)])
  }

  lemma TokensAdmit()
    ensures Auth.Admits(Tokens(), RoleAgent, Some(DEVICE), Key(2))
    ensures Auth.Admits(Tokens(), RoleAgentSession, Some(DEVICE), Key(2))
    ensures Auth.Admits(Tokens(), RoleController, None, Key(1))
  {
  }

  lemma ReachableStart(auth: Auth.Snapshot)
    ensures Reachable(Start(auth))
  {
    assert Run([Start(auth)], []);
  }

  lemma Then(r: Relay, a: Action) returns (n: Relay)
    requires Reachable(r) && Shape(r) && Enabled(r, a)
    ensures n == Next(r, a) && Reachable(n) && Shape(n)
  {
    hide Next;
    n := Next(r, a);
    var states, actions :| Run(states, actions) && r in states;
    var i :| 0 <= i < |states| && states[i] == r;
    var longer, more := states[..i + 1] + [n], actions[..i] + [a];
    assert longer[0] == states[0];
    forall k | 0 <= k < |more|
      ensures Shape(longer[k]) && Enabled(longer[k], more[k]) && longer[k + 1] == Next(longer[k], more[k])
    {
      if k < i {
        assert longer[k] == states[k] && longer[k + 1] == states[k + 1];
      }
    }
    assert Run(longer, more) && longer[|more|] == n;
  }

  /** A connection arrives and is let in. */
  lemma Admit(r: Relay, role: Role, device: Option<DeviceId>, token: Token) returns (n: Relay)
    requires Reachable(r) && Shape(r) && r.free > 0
    requires Auth.Admits(r.auth, role, device, token)
    ensures Reachable(n) && Shape(n) && |n.tasks| == |r.tasks| + 1
    ensures n.tasks == r.tasks + [Welcoming(role, device, false)] && n.chans == r.chans + [IDLE]
    ensures n.gens == r.gens && n.devices == r.devices && n.auth == r.auth && n.free == r.free - 1
  {
    hide Reachable;
    hide Auth.Admits;
    var t, hello := |r.tasks|, Hello(PROTOCOL_VERSION, role, token, device, []);
    n := Then(r, Arrive);
    assert n.tasks[t] == Greeting;
    n := Then(n, Receive(t, hello));
    assert n.tasks == r.tasks + [Welcoming(role, device, false)];
  }

  /** An agent's control channel, up to its registration. */
  lemma AgentRegisters() returns (n: Relay)
    ensures Reachable(n) && Shape(n) && n.auth == Tokens() && n.free == MAX_CONNECTIONS - 1
    ensures n.tasks == [Serving(DEVICE, 0, false)] && n.chans == [IDLE] && n.devices == map[DEVICE := 0]
    ensures n.gens == [Generation(DEVICE, 0, map[], [], true, true, [], [], None)]
  {
    hide Reachable;
    ReachableStart(Tokens());
    TokensAdmit();
    n := Admit(Start(Tokens()), RoleAgent, Some(DEVICE), Key(2));
    n := Then(n, Write(0));
    assert n.tasks == [Registering(DEVICE, false)];
    n := Then(n, Lock(0));
    assert n.tasks == [Serving(DEVICE, 0, false)];
  }

  /** A controller asks for the device. */
  lemma ControllerAsks() returns (n: Relay)
    ensures Reachable(n) && Shape(n) && n.auth == Tokens() && n.free == MAX_CONNECTIONS - 2
    ensures n.tasks == [Serving(DEVICE, 0, false), Finding(DEVICE, SESSION)] && n.devices == map[DEVICE := 0]
    ensures n.chans == [IDLE, IDLE] && n.gens == [Generation(DEVICE, 0, map[], [], true, true, [], [], None)]
  {
    hide Reachable;
    TokensAdmit();
    n := AgentRegisters();
    n := Admit(n, RoleController, None, Key(1));
    n := Then(n, Write(1));
    assert n.tasks[1] == Requesting;
    n := Then(n, Receive(1, OpenRequest(DEVICE, SESSION)));
  }

  /** It finds the agent and is enrolled. */
  lemma ControllerEnrols() returns (n: Relay)
    ensures Reachable(n) && Shape(n) && n.auth == Tokens() && n.free == MAX_CONNECTIONS - 2
    ensures n.tasks == [Serving(DEVICE, 0, false), Queueing(DEVICE, SESSION, 0)] && n.devices == map[DEVICE := 0]
    ensures n.chans == [IDLE, Chan(Some(Home(0, SESSION)), InMap, Empty, true)]
    ensures n.gens == [Generation(DEVICE, 0, map[SESSION := 1], [], true, true, [], [], None)]
  {
    hide Reachable;
    n := ControllerAsks();
    n := Then(n, Lock(1));
    assert n.tasks[1] == Enrolling(DEVICE, SESSION, 0);
    n := Then(n, Lock(1));
  }

  /** Its request is queued and told to the agent. */
  lemma ControllerWaits() returns (n: Relay)
    ensures Reachable(n) && Shape(n) && n.auth == Tokens() && n.free == MAX_CONNECTIONS - 2
    ensures n.tasks == [Serving(DEVICE, 0, false), Waiting(DEVICE, SESSION, 0)] && n.devices == map[DEVICE := 0]
    ensures n.chans == [IDLE, Chan(Some(Home(0, SESSION)), InMap, Empty, true)]
    ensures |n.gens| == 1 && n.gens[0].pending == map[SESSION := 1]
  {
    hide Reachable;
    n := ControllerEnrols();
    n := Then(n, Enqueue(1));
    assert n.gens[0].queue == [Request(1, SESSION)];
    n := Then(n, Pop(0));
  }

  /** The agent's session connection attaches. */
  lemma SessionAsks() returns (n: Relay)
    ensures Reachable(n) && Shape(n) && n.devices == map[DEVICE := 0]
    ensures n.tasks == [Serving(DEVICE, 0, false), Waiting(DEVICE, SESSION, 0), Locating(DEVICE, SESSION)]
    ensures n.chans == [IDLE, Chan(Some(Home(0, SESSION)), InMap, Empty, true), IDLE]
    ensures |n.gens| == 1 && n.gens[0].pending == map[SESSION := 1]
  {
    hide Reachable;
    TokensAdmit();
    n := ControllerWaits();
    n := Admit(n, RoleAgentSession, Some(DEVICE), Key(2));
    n := Then(n, Write(2));
    assert n.tasks[2] == Attaching(DEVICE);
    n := Then(n, Receive(2, SessionAttach(SESSION)));
  }

  /** It is given the waiting controller's sender. */
  lemma SessionAttaches() returns (n: Relay)
    ensures Reachable(n) && Shape(n)
    ensures n.tasks == [Serving(DEVICE, 0, false), Waiting(DEVICE, SESSION, 0), Confirming(DEVICE, SESSION, 1)]
    ensures n.chans == [IDLE, Chan(Some(Home(0, SESSION)), Held(2), Empty, true), IDLE]
  {
    hide Reachable;
    n := SessionAsks();
    n := Then(n, Lock(2));
    assert n.tasks[2] == Claiming(DEVICE, SESSION, 0);
    n := Then(n, Lock(2));
    assert n.tasks[2] == Accepting(DEVICE, SESSION, 1);
    n := Then(n, Write(2));
  }

  /** Its stream is handed over. */
  lemma StreamIsHandedOver() returns (n: Relay)
    ensures Reachable(n) && Shape(n)
    ensures n.tasks == [Serving(DEVICE, 0, false), Waiting(DEVICE, SESSION, 0), HandedOff(DEVICE, SESSION, 1)]
    ensures n.chans[1].inbox == Stream(2)
  {
    hide Reachable;
    n := SessionAttaches();
    n := Then(n, Receive(2, Ready(SESSION)));
  }

  /** A bridge is reached. */
  lemma SessionIsBridged() returns (n: Relay)
    ensures Reachable(n) && Shape(n) && |n.tasks| == 3 && n.tasks[1] == Bridging(DEVICE, SESSION, 2)
  {
    hide Reachable;
    n := StreamIsHandedOver();
    n := Then(n, Collect(1));
    assert n.tasks[1] == Granting(DEVICE, SESSION, 2);
    n := Then(n, Write(1));
  }
}
