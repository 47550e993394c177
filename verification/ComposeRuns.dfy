/** What whole histories of relay and clients keep: the heartbeat of a control channel, and the end of a client. */
module ComposeRuns {
  import opened Bytes
  import opened Messages
  import Auth
  import opened Relay
  import opened RelayTheorems
  import RelayEndings
  import opened Clients
  import opened Compose

  /** How many Pings client `t` has been told to write. */
  function Beats(deeds: seq<Deed>, t: TaskId): nat {
    if deeds == [] then 0
    else Beats(deeds[..|deeds| - 1], t) + if deeds[|deeds| - 1] == Beat(t) then 1 else 0
  }

  function PingsSent(w: World, t: TaskId): nat {
    if t < |w.peers| && w.peers[t].Client? then RelayEndings.Count(w.peers[t].sent, Ping) else 0
  }

  lemma LineIsNoPing(plan: Plan, phase: Phase)
    requires Fits(plan, phase) && Speaks(phase)
    ensures Line(plan, phase) != Ping
  {
  }

  lemma BeatCounts(w: World, d: Deed, t: TaskId)
    requires Tied(w) && Possible(w, d)
    ensures PingsSent(Do(w, d), t) == PingsSent(w, t) + if d == Beat(t) then 1 else 0
  {
    match d
    case Speak(u) =>
      LineIsNoPing(w.peers[u].plan, w.peers[u].phase);
      RelayEndings.CountSnoc(w.peers[u].sent, Line(w.peers[u].plan, w.peers[u].phase), Ping);
    case Beat(u) => RelayEndings.CountSnoc(w.peers[u].sent, Ping, Ping);
    case _ =>
  }

  /** A client writes one Ping for each beat, and no other. */
  lemma {:induction false} PingsAreBeats(worlds: seq<World>, deeds: seq<Deed>, i: nat, t: TaskId)
    requires History(worlds, deeds) && i < |worlds|
    ensures PingsSent(worlds[i], t) == Beats(deeds[..i], t)
  {
    if i > 0 {
      PingsAreBeats(worlds, deeds, i - 1, t);
      BeatCounts(worlds[i - 1], deeds[i - 1], t);
      assert deeds[..i][..i - 1] == deeds[..i - 1];
    }
  }

  /** Once a client has quit, on an error, a deadline or the user's wish, it is over: it reads and writes nothing more. */
  lemma {:induction false} QuitIsFinal(worlds: seq<World>, deeds: seq<Deed>, i: nat, j: nat, t: TaskId)
    requires History(worlds, deeds) && i < j < |worlds| && deeds[i] == Quit(t)
    ensures t < |worlds[i].peers| && worlds[i].peers[t].Client?
    ensures t < |worlds[j].peers| && worlds[j].peers[t] == worlds[i].peers[t].(phase := Ended(Broken))
  {
    if i + 1 < j {
      QuitIsFinal(worlds, deeds, i, j - 1, t);
      EndedStays(worlds[j - 1], deeds[j - 1], t);
    }
  }

  lemma EndedStays(w: World, d: Deed, t: TaskId)
    requires Tied(w) && Possible(w, d) && t < |w.peers| && w.peers[t].Client? && w.peers[t].phase.Ended?
    ensures t < |Do(w, d).peers| && Do(w, d).peers[t] == w.peers[t]
  {
  }
}
