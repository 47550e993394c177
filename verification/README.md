# rust-ssh: a verified model

rust-ssh connects a controller to an SSH server behind a NAT through a relay. An agent keeps one encrypted control
channel open to the relay; when a controller asks for a device, the relay tells the agent, the agent opens a session
connection of its own, and the relay joins the two connections. This project models the parts of that program where a
mistake would be hard to see, and proves what they are for.

**The byte stream.** `Wire.dfy` describes the encrypted framing on values: a frame is a 32-bit length and a sealed
chunk, the AEAD is a pair of functions indexed by a counter (section 5.1 of the Noise Protocol Framework, revision 34;
messages of at most 65535 bytes by its section 3; the 16-byte tag of section 2.8 of RFC 8439), and a one-shot parser says what a received
byte string means. `Noise.dfy` is the resumable stream: a class with the fields of `NoiseStream` over a transport whose
behaviour is an arbitrary script of partial reads, partial writes, Pendings and errors. `Frames.dfy` puts control
frames on top, as futures that may be suspended at every poll, and `EndToEnd.dfy` runs whole conversations: a writing
task, a reading task and a network that take turns in any order; `Handover.dfy` does the same for a stream that changes
from control frames to the raw bytes of a bridge. `MessageCodec.dfy` and the toy cipher in `Wire.dfy`
show that the assumptions on serialisation and cipher can be met.

**The relay.** `Relay.dfy` is a step system: one task per connection, one object per agent generation, one-shot
channels, permits and the device map. Each lock-protected section, each channel operation and each whole frame is one
atomic step; tasks interleave freely and peers, errors and deadlines are unconstrained. `RelaySenders`,
`RelaySessions`, `RelayPermits`, `RelayGenerations`, `RelayLogs` and `RelayQueues` each prove one invariant for every step;
`RelayFrames` says what a step leaves alone. `RelayTheorems.dfy` draws the conclusions for every reachable state,
`RelayDraining`, `RelayListing`, `RelayReasons`, `RelayEndings` and, over `RelayRanks`, `RelayProgress` those about whole
runs: what becomes of the senders of an ended generation, what a device list says, what becomes of an answer and why a
request is refused, how a handler ends, and how far it is from depending on its peer. `RelayExample.dfy` walks one session
from three fresh connections to a bridge, so that the theorems are not about nothing. `Registry.dfy` has the objects behind
the locks as classes updated in place, `Auth.dfy` the token check.

**Both ends together.** `Clients.dfy` has the agent's and the controller's programs, as steps and as methods over a
link that run those steps; `Compose.dfy` connects any number of them, and any number of strangers, to the relay, and
`ComposeRuns.dfy` follows such a system over whole histories.
`AgentLoop.dfy` and `ServerLoop.dfy` are the two `select!` loops of the control channel over the spawned tasks of
`Tasks.dfy`; `Heartbeat.dfy` is the timed side of the same channel.

**The SSH configuration.** `SshText.dfy`, `SshBlocks.dfy`, `SshConfig.dfy` and `SshHosts.dfy` model the editor that keeps a
marked part of the user's SSH configuration: a small parser and printer that must behave like a list of host blocks and leave
the user's own text alone. `SshCommand.dfy` reads a block back as ssh and a shell would.

`dafny verify dfyconfig.toml` checks everything.

Four things the code does that a reader might not expect are kept as they are: a duplicate pending session id is refused with the
message about too many sessions, the end marker gains one line break with every edit of the SSH configuration, a
flush after a suspended write discards the count that write would have reported, and the paths written into a host block
are not checked for line breaks or for the end marker.

## Model

| member | source | states |
|---|---|---|
| Bytes.BigEndian | src/noise.rs:397-400 | lengths have their most significant byte first, and reading one and writing it again changes nothing |
| Wire.ParseAppend | src/noise.rs:256-363 | reading a byte string in two parts and carrying the remainder over gives what reading it at once gives |
| Wire.ParseEncode | src/noise.rs:387-405 | what the writer frames, the one-shot reader opens, chunk for chunk, to the last byte |
| Wire.FrameShape | src/noise.rs:312-321 | every frame written has a length the reader accepts |
| Wire.HonestPrefix | src/noise.rs:256-363 | any prefix of an honest wire parses without a failure, to a prefix of the plaintext |
| Wire.ToyCipherIsLawful | src/noise.rs:356-396 | the assumptions on the AEAD are satisfiable |
| Noise.InnerStream.PollRead | src/noise.rs:285-290 | the transport may deliver any part of what has arrived, also together with Pending |
| Noise.InnerStream.PollWrite | src/noise.rs:217-240 | the transport may accept any part, or claim an impossible count |
| Noise.NoiseStream.FillHeader | src/noise.rs:283-310 | a half-read header survives Pending; an end before it is clean, inside it an unexpected end |
| Noise.NoiseStream.FillBody | src/noise.rs:326-350 | a half-read body survives Pending; an end inside it is an unexpected end |
| Noise.NoiseStream.OpenFrame | src/noise.rs:352-361 | a completed frame is opened at the next counter, which moves only on success |
| Noise.NoiseStream.AdvanceFrame | src/noise.rs:283-361 | one turn completes and opens one frame, or says why not; an impossible length stays the answer |
| Noise.NoiseStream.AwaitPlaintext | src/noise.rs:267-362 | empty plaintexts are skipped; decrypted bytes are kept |
| Noise.NoiseStream.PollRead | src/noise.rs:256-363 | delivered bytes and leftover are the parse of what was received; clean end only at a frame boundary; leftover goes first; no byte past the frame is read; when plaintext is to come and the transport brings it, some is handed out |
| Noise.NoiseStream.PollPendingWrite | src/noise.rs:202-242 | a partly sent frame continues where it stopped and reports its plaintext count only when it is out; it fails only for what the transport has just done, and a transport that takes something on every write takes the whole frame |
| Noise.NoiseStream.PollWrite | src/noise.rs:370-413 | one chunk, the whole buffer or 32 KiB of it, is sealed per frame; a caller that retries with the same bytes gets counts that add up; an error has its cause, and a willing transport gets the frame |
| Noise.NoiseStream.PollFlush | src/noise.rs:415-435 | a completed flush or shutdown leaves every sealed frame on the wire and the transport flushed |
| Noise.ParsedPrefixOfEncoded | src/noise.rs:256-413 | whatever prefix of an honest wire has been received, no frame fails and the plaintext is a prefix of what was sealed |
| Noise.DeliveredIsPrefixOfWritten | src/noise.rs:202-413 | end to end: delivered bytes are a prefix of the written ones and equal them once the wire is drained |
| Frames.FramesPrefix | src/protocol.rs:101-139 | control frames are self-delimiting: a stream that starts like a list of frames starts with those frames |
| Frames.WriteAll | src/protocol.rs:134-137 | write_all over the stream accepts its bytes once each, in order, across suspensions; it is broken off only by the transport's own fault or the last nonce, and otherwise completes |
| Frames.FrameWriter.Poll | src/protocol.rs:121-139 | a resumed write_frame continues and ends with exactly its frame accepted and flushed; every broken write has its cause in the transport's last answer or in the counter; with nonces left and a transport that takes something on every write the frame is done |
| Frames.FrameReader.Poll | src/protocol.rs:101-119 | a resumed read_frame takes exactly one frame from the stream; lengths 0 and above 64 KiB are refused; a whole frame that the transport brings is read |
| Frames.MessagesArriveInOrder | src/protocol.rs:101-139 | messages are read in the order written, each once, none invented, for every fragmentation |
| Frames.NoMessageMissing | src/protocol.rs:101-139 | once everything sent has been received and opened, every message has been read |
| Handover.HandoverIsExact | src/server.rs:776-777 | what a bridge has read and can read without the transport is what the far end wrote behind its last control frame, and all of it once everything has arrived |
| Handover.PushData | src/noise.rs:370-413 | a bridge that offers the same buffer until its frame is out has its bytes accepted in order, once each, and gets on whenever the transport does |
| Handover.PullData | src/noise.rs:256-363 | read polls of any size take the bytes behind the control frames in order, and some whenever there are some and the transport brings them |
| Handover.HandOver | src/agent.rs:304-378 | for all control frames, data, poll sizes, schedules and transport scripts: the frames read are the first written, and what the bridge then reads is a prefix of the data |
| Handover.NothingLost | src/agent.rs:304-378 | when nothing is left on the way, every control frame has been read as one and every byte behind them by the bridge |
| Handover.Changeover.Complete | src/agent.rs:304-378 | from any point of a handover that nothing has broken: transports that go on bring every control frame across as one and every byte behind them to the bridge |
| EndToEnd.WriterStep | src/protocol.rs:121-139 | one poll of the writing task keeps what is on its way within the frames of the messages |
| EndToEnd.ReaderStep | src/protocol.rs:101-119 | one poll of the reading task yields at most one whole frame and starts on the next |
| EndToEnd.Conversation.TakeTurn | src/noise.rs:202-413 | every turn of writer, reader or network keeps what has been read a growing prefix of the messages |
| EndToEnd.Converse | src/protocol.rs:101-139 | for all messages, schedules and transport scripts, what is decoded is a prefix of what was written |
| EndToEnd.NothingMissing | src/protocol.rs:101-139 | when nothing is left on the way, all messages have been decoded |
| EndToEnd.Conversation.Complete | src/protocol.rs:101-139 | from any point of a conversation that nothing has broken: transports that go on bring all remaining messages across |
| MessageCodec.MessagesHaveACodec | src/protocol.rs:56-99 | a serialisation with decode(encode(m)) == m exists for all control messages |
| Auth.ConstantTimeEqual | src/server.rs:826-834 | true exactly for equal byte strings of any lengths; as many rounds as the longer has bytes |
| Auth.Authenticate | src/server.rs:325-356 | accepts exactly the roles, ids and tokens `Admits` describes: the controller token, or the token the files have for a valid device id, of 32 to 4096 bytes; names the first reason otherwise |
| Registry.OneShot.Send | src/server.rs:646 | sending consumes the sender; the value is lost when nobody listens |
| Registry.Device.RegisterPending | src/server.rs:781-792 | an entry is added exactly when there is room and the id is new |
| Registry.Device.TakePending | src/server.rs:794-799 | the entry is gone and its sender has one owner |
| Registry.Device.FailPending | src/server.rs:801-809 | the map is empty and each sender that was in it has been used exactly once, for an error |
| Registry.Device.Stop | src/server.rs:811-815 | the shutdown sender fires when it is still there and never a second time |
| Registry.Devices.Insert | src/server.rs:461-464 | the newcomer is current; whoever was is handed back |
| Registry.Devices.Unregister | src/server.rs:817-824 | only the very object that is current is removed |
| Registry.Devices.Replace | src/server.rs:461-468 | a replaced agent's exit resolves its own controllers and leaves the newer agent in the map |
| RelaySenders.LinearStep | src/server.rs:617-809 | every step keeps each response sender in exactly the place its channel records |
| RelaySessions.RefsStep | src/server.rs:591-778 | every step keeps phases and channels pointing at the right generation, session and stream |
| RelayPermits.ConservedStep | src/server.rs:147-176 | every step keeps free, held and travelling permits adding up to 128 |
| RelayGenerations.LineageStep | src/server.rs:461-468 | every step keeps the order of generations, their handlers and their shutdown senders |
| RelayLogs.LogsStep | src/server.rs:258-323 | every step keeps each connection's conversation within what its role and phase allow, kind by kind; what a list or a reason says is in `RelayListing` and `RelayReasons` |
| RelayQueues.QueuesStep | src/server.rs:510-526 | every step keeps the open queues FIFO and the pending maps bounded |
| RelayTheorems.InvRun | src/server.rs:258-824 | all six invariants hold along every run |
| RelayFrames.OnlyStep | src/server.rs:258-824 | a step moves one task and speaks on its connection only |
| RelayProgress.OwnStepIsReady | src/server.rs:258-824 | unless a handler waits for a frame, writes one, bridges, has given its stream away or is done, a step of its own is ready: a lock, a send, the end of the phase, or, in the controller's open wait only, its deadline |
| RelayProgress.WhatIsLeftCanBeTaken | src/server.rs:506-564 | an answer, a queued request, a shutdown signal or room in a queue can be taken at once, and a handler up to its peer is ready for whatever the peer does |
| RelayProgress.OwnStepsDescend | src/server.rs:258-824 | and each such step takes it nearer to a phase that depends on the peer |
| RelayProgress.CountsDown | src/server.rs:258-824 | over any stretch of a run in which a handler depends on no peer, its own steps and the rank it has left add up to no more than the rank it started with, at most 36 |
| RelayProgress.HandlersComeToTheirPeer | src/server.rs:258-824 | however the relay is scheduled, a handler that takes 36 steps of its own has on the way been in a phase that depends on its peer, or is over |
| RelayTheorems.SenderInExactlyOnePlace | src/server.rs:617-809 | the response sender of a registered controller is in exactly one map entry, task or batch until it is used or dropped, and in none from then on |
| RelayTheorems.UsedMeansAnswered | src/server.rs:720-734 | while its controller waits, a sender has been used or dropped exactly when an answer lies in the inbox |
| RelayTheorems.SpentForGood | src/server.rs:617-809 | a sender that has been used or dropped is never used again, whatever the next step |
| RelayTheorems.OneVerdictPerRequest | src/server.rs:736-777 | an open request gets at most one of Ready and Failed, with its own session id |
| RelayTheorems.BridgedToTheRightSession | src/server.rs:591-778 | a controller is bridged only to a stream let in for its target with that device's token that attached with its session and said Ready |
| RelayTheorems.StreamHasOneOwner | src/server.rs:644-647 | no stream is ever given to two controllers |
| RelayTheorems.PermitsAreConserved | src/server.rs:148-155 | free permits, held permits and permits in unread values are 128 in every reachable state; at most 64 bridges |
| RelayTheorems.LateHandoffReturnsPermit | src/server.rs:646 | a Ready gives the stream to a controller that still waits; for one that has given up its permit is free at once and no controller has the stream |
| RelayTheorems.MapNamesNewestGeneration | src/server.rs:461-464 | the newest generation of a device is in the map exactly until its handler unregisters |
| RelayTheorems.EntriesAreNewest | src/server.rs:817-824 | and no other generation is ever named by the map |
| RelayTheorems.ReplacedGenerationIsStopped | src/server.rs:465-468 | every registered generation that is not the newest has a later one of its device as successor, and has been signalled by it or is about to be |
| RelayTheorems.ExitNeverEvictsAnother | src/server.rs:817-824 | over any step, a device's entry changes only when a new generation registers or when the handler of the very generation it names unregisters |
| RelayTheorems.EntryBelongsToWaitingController | src/server.rs:714-774 | every pending entry belongs to a controller still in its open wait or its cleanup; at most 32 per device |
| RelayTheorems.NoPendingLeak | src/server.rs:732-774 | with no controller waiting or cleaning up, every pending map is empty, dead generations included |
| RelayTheorems.ControlNeverTouchesAttachedSessions | src/server.rs:571-572 | no step of a control handler, its death included, changes an attached session or its controller's channel |
| RelayDraining.FailPendingAnswersAll | src/server.rs:801-809 | over any run: each sender in the map when it is swapped out is answered exactly once before the handler unregisters, with a refusal if its controller still waits |
| RelayDraining.FailPendingAnswersNoOther | src/server.rs:801-809 | and no other sender is answered by it |
| RelayDraining.AnswerArrives | src/server.rs:806-808 | each of them was unanswered until then |
| RelayTheorems.OpensAreFifo | src/server.rs:511-526 | the Opens written on a generation are a FIFO prefix of its queued requests, each registered before |
| RelayListing.CountTakesTheRegistry | src/server.rs:681-691 | the section behind a list request takes exactly the devices whose newest agent has registered and not unregistered |
| RelayListing.ListsAreTheRegistry | src/server.rs:681-693 | over any run: a device list that is written is the registry at the moment its handler looked |
| RelayListing.LookupsAskTheRegistry | src/server.rs:697-712 | opening and attaching go on exactly for a registered device, and with its newest agent; otherwise the peer is told that it is offline |
| RelayReasons.AnswerGetsThrough | src/server.rs:644-660 | over any run, unless the controller's deadline passes first: what an agent session answers is what its controller is told, Ready and then this very stream, or Failed with the agent's own reason, and nothing else |
| RelayReasons.RefusalHasItsCause | src/server.rs:697-774 | a request is refused only for an offline device, a full or taken entry, a lost agent, a deadline or an answer, and the reason names which |
| RelayReasons.ClaimDecides | src/server.rs:615-629 | an agent session is dismissed exactly when no controller's sender is there under its id |
| RelayEndings.EndedForGood | src/server.rs:506-570 | over any run: after an error, a deadline, a replacement or a frame it has no use for, a handler never reads or writes again, and is over with its permit given back within 36 steps of its own |
| RelayEndings.EveryPingIsAnswered | src/server.rs:527-535 | over any run: as many Pongs have been written on a control channel as Pings read |
| RelayEndings.TokensAreTheLastRead | src/server.rs:325-356 | peers are let in under the token files as they were last read |
| RelayExample.SessionIsBridged | src/server.rs:258-778 | a run from the empty relay to a bridge exists |
| Clients.BridgedExactlyWhen | src/connect.rs:101-154 | a client is bridged exactly when all its writes complete, the relay welcomes it and grants its own session id, and on the agent's side the local server answers; it has then said, frame by frame, its Hello with its own token, its request, and on the agent's side Ready |
| Clients.RefusedExactlyWhen | src/connect.rs:129-153 | a client is refused exactly when the relay says Failed for its own session id, and gives that reason |
| Clients.UnreachableExactlyWhen | src/agent.rs:340-372 | a local server that does not answer is reported to the relay as Failed with the reason |
| Clients.ListedExactlyWhen | src/connect.rs:51-94 | the list program ends with a list exactly when the relay answers with that list; it has said its Hello with its own token and the request |
| Clients.ControllingExactlyWhen | src/agent.rs:173-214 | the control connection is up exactly when the relay welcomes it, with the heartbeat of the answer; it has said its Hello with its own device, token and features |
| Clients.ListDevices | src/connect.rs:51-94 | the device-list program over any link takes the client's steps and no others |
| Clients.OpenSession | src/connect.rs:101-154 | so does the controller program up to its bridge, whose frames `Clients.BridgedExactlyWhen` and `Compose.GreetingUnderstood` spell out |
| Clients.RunSession | src/agent.rs:304-378 | so does the agent's session program up to its bridge |
| Clients.ConnectControl | src/agent.rs:173-214 | so does the control connection, which takes the heartbeat from the relay's answer |
| Compose.LogsGrow | src/server.rs:258-778 | a relay step hears at most the frame it received and unsays nothing |
| Compose.SoundDeed | src/agent.rs:173-378 | every step of relay or client keeps both ends of every connection consistent |
| Compose.ClientNeverSurprised | src/connect.rs:129-153 | no client ever takes an unexpected-message arm, whatever strangers do |
| Compose.RelayNeverSurprised | src/server.rs:258-700 | the relay never takes one on a connection of a known program |
| Compose.GreetingUnderstood | src/server.rs:258-356 | the relay welcomes a program exactly when the token files have the program's own token for its role and device, with its device and its offer of a heartbeat, and ends it otherwise |
| Compose.RequestUnderstood | src/server.rs:591-700 | the request of a program becomes the work that program came for: its list, its target and session, or its session |
| Compose.HeartbeatAgreed | src/agent.rs:196-201 | both ends of a control channel agree on the heartbeat, for any offered features; without it no Ping is ever sent |
| Compose.NoMutualWait | src/agent.rs:304-348 | client and relay task never wait for each other, idle control channels apart |
| Compose.OpenerMeetsItsSession | src/server.rs:674-778 | a bridged controller program meets the session program started for its target and session, itself bridged |
| ComposeRuns.PingsAreBeats | src/agent.rs:274-284 | over any history a client writes one Ping for each beat, and no other |
| ComposeRuns.QuitIsFinal | src/agent.rs:296-302 | over any history a client that has quit reads and writes nothing more |
| Tasks.ReaderTask.Poll | src/agent.rs:263-273 | polling a join handle yields the result at most once; a consumed handle may not be polled |
| Tasks.WriterTask.TrySend | src/server.rs:490-503 | control frames queue in order behind one bounded channel: sent while there is room, refused while it is full, dropped once its task is gone |
| Tasks.SessionSet.JoinNext | src/agent.rs:258-262 | only a session that has ended by itself leaves the set |
| AgentLoop.WritePing | src/agent.rs:274-284 | a Ping is written within its deadline, and the interval runs from its completion |
| AgentLoop.Arm | src/agent.rs:249-295 | each arm of the select, and each step of the tasks beside it, does exactly its work: a queued frame is received, the end of the reader noticed, a due Ping written or the loop ended, a due silence ends it |
| AgentLoop.Coheres | src/agent.rs:245-294 | every moment keeps sessions started for exactly the Opens handled, Pings spaced, and the end of the loop for a reason |
| AgentLoop.RunControlStream | src/agent.rs:217-302 | for every schedule the loop goes through the moments one by one: as many frames are handled as the frame arm met, a due silence always ends it, sessions are started exactly for the Opens handled, none is taken away, the reader's handle is awaited once |
| AgentLoop.FrameIsHandled | src/agent.rs:249-262 | a frame in the channel is handled when its arm is picked, and an Open has then started its session |
| AgentLoop.ReaderEndIsNoticed | src/agent.rs:261-273 | the end of the reader ends the loop, through its handle or its empty channel |
| AgentLoop.PingIsWritten | src/agent.rs:274-284 | a due Ping is written, or ends the loop by its deadline or its error |
| AgentLoop.SilenceEndsIt | src/agent.rs:285-293 | once the window since the last frame is over, the heartbeat arm ends the loop |
| AgentLoop.CauseOfEnd | src/agent.rs:249-295 | and nothing else ends it |
| AgentLoop.HandledAreMet | src/agent.rs:249-262 | over any script, frames are handled at exactly the moments that pick the frame arm and meet one |
| AgentLoop.ChannelIsDrained | src/agent.rs:249-262 | as many picks of the frame arm as the channel has frames empty it, in order |
| AgentLoop.FrameGetsThrough | src/agent.rs:223-262 | a frame the relay sends to an idle loop comes to be handled |
| AgentLoop.BackoffDoubles | src/agent.rs:145-151 | the k-th failure in a row waits min(2^k, 30) seconds, a connection resets it |
| AgentLoop.AttemptStartsItsOpens | src/agent.rs:97-143 | an attempt starts a session for each Open it handles and takes none down, whatever ends it |
| AgentLoop.Reconnect | src/agent.rs:97-143 | the sessions are what the attempts and the waits between them make of them, one after the other: no lost control channel and no wait takes one down; the waits follow the backoff |
| AgentLoop.RunUntilStopped | src/agent.rs:87-143 | every session ever started has ended by itself, or still ran when the stop came and was then taken down |
| ServerLoop.OpenSettles | src/server.rs:511-526 | with its Open, a request taken from the queue is in step again |
| ServerLoop.FrameSettles | src/server.rs:527-537 | with its Pong, a Ping received is in step again; anything else ends the loop |
| ServerLoop.Submit | src/server.rs:516-525 | a send waits while the writer's channel is full and reaches it once |
| ServerLoop.Arm | src/server.rs:506-564 | each arm of the select does exactly its work, the wait to send included: a queued request is taken and its Open submitted, a Ping is answered, a shutdown, a dead task or a due silence ends the loop |
| ServerLoop.Balances | src/server.rs:506-564 | every moment keeps Pings and Pongs, requests and Opens in step, up to the one frame in hand |
| ServerLoop.RequestIsTaken | src/server.rs:511-526 | a queued request is taken when its arm is picked; its Open is then submitted, in hand, or dropped with the loop |
| ServerLoop.FrameIsHandled | src/server.rs:527-537 | a frame in the channel is handled when its arm is picked: a Ping is answered, anything else ends the loop |
| ServerLoop.RoomIsUsed | src/server.rs:516-533 | a loop that waits to send has sent its frame as soon as the writer has put one out |
| ServerLoop.EndIsNoticed | src/server.rs:506-564 | a shutdown, a dead task or a silent window ends the loop when its arm is picked |
| ServerLoop.CauseOfEnd | src/server.rs:506-564 | and nothing else ends it, save the end of the writer while a frame waits to be sent |
| ServerLoop.AllMet | src/server.rs:506-537 | over any script, frames and requests are taken at exactly the moments that pick their arm and meet one |
| ServerLoop.PingGetsThrough | src/server.rs:475-537 | a Ping that reaches an idle loop is answered on the wire |
| ServerLoop.RequestGetsThrough | src/server.rs:490-526 | a request that reaches an idle loop becomes an Open on the wire |
| ServerLoop.Serve | src/server.rs:470-570 | for every schedule the loop goes through the moments one by one: Opens on the wire are a FIFO prefix of the requests, frames handled a prefix of those decoded, as many of both as their arms met, both join handles awaited once |
| Heartbeat.StaysInTime | src/agent.rs:245-294 | every step keeps a bound on when the next Ping is handled |
| Heartbeat.RelayNeverTimesOut | src/server.rs:553-558 | with sufficient timing the relay's timeout arm is never due while the agent's loop runs |
| Heartbeat.TimingBoundIsExact | src/server.rs:553-558 | the timing condition is necessary too: when it fails, a run reaches the timeout |
| Heartbeat.DefaultTimingIsSufficient | src/protocol.rs:33-41 | the shipped 15, 45 and 10 seconds suffice for any delivery under 10 seconds |
| Heartbeat.SilenceIsNoticed | src/agent.rs:285-293 | the agent's loop ends at most one dead window and one write after the last frame, and its heartbeat arm never fires before the window is over |
| Heartbeat.TimersFire | src/agent.rs:274-293 | every timer can fire when it is due, and nothing else holds up time |
| SshText.NormalizeIsOnePass | src/desktop.rs:1670-1672 | the two replacements turn each line break, CR LF, CR or LF, into one LF and leave no CR |
| SshText.NormalizeIsIdempotent | src/desktop.rs:1670-1672 | normalising twice is normalising once |
| SshText.WindowsRoundTrip | src/desktop.rs:1661-1665 | what the Windows build writes reads back as it was |
| SshText.EveryBreakIsCrLf | src/desktop.rs:1661-1665 | and in it every line break is CR LF |
| SshText.TrimTakesThePadding | src/desktop.rs:1628-1637 | trimming takes away all white space around a text and nothing else |
| SshText.BlankIsAllSpace | src/desktop.rs:1681-1683 | a line is blank exactly when it is white space only |
| SshBlocks.SplitHostBlocks | src/desktop.rs:1674-1691 | the loop computes the splitting function |
| SshBlocks.GroupPartitions | src/desktop.rs:1674-1691 | splitting loses only blank lines at the very start, and yields blocks |
| SshBlocks.SplittingIsUnique | src/desktop.rs:1674-1691 | splitting finds the one way to cut lines into blocks |
| SshBlocks.EditedBody | src/desktop.rs:1627-1643 | the printed body reads back as the old blocks without the replaced ones, followed by the new |
| SshBlocks.KeepInOrder | src/desktop.rs:1628-1637 | each block is judged by itself and those that stay keep their order |
| SshBlocks.PaddedLinesName | src/desktop.rs:1629-1635 | a host or a device is recognised with white space around it |
| SshConfig.Retain | src/desktop.rs:1628-1637 | the loop keeps exactly the blocks of other hosts and devices, in order |
| SshConfig.Rewrite | src/desktop.rs:1618-1660 | the text written is the specified one, of which `SshConfig.UpdateKeepsTheRest` says that the user's own text is in it; an unfinished managed part is refused |
| SshConfig.ConfigFile.Update | src/desktop.rs:1603-1668 | the file is replaced by that text in the platform's line endings, or left alone |
| SshConfig.UpdateKeepsTheRest | src/desktop.rs:1645-1660 | the text before the markers is unchanged, the text after them survives as a suffix, and the parts are found again; a text without markers stands in front of them, its trailing white space replaced by one blank line, or by nothing when it is blank |
| SshConfig.SectionsAreParts | src/desktop.rs:1618-1625 | a finished managed part cuts the text at the first begin marker and the next end marker |
| SshConfig.UserLinesKept | src/desktop.rs:1645-1660 | where the parts stand, so do all the user's lines, first in the file without markers, before and behind them otherwise |
| SshConfig.UpdateEdits | src/desktop.rs:1622-1644 | re-parsing gives the list model: drop the same host or device, append the new block |
| SshConfig.OnePairStaysOnePair | src/desktop.rs:1640-1660 | a file with no markers or one pair has exactly one pair afterwards |
| SshConfig.EditsFollowTheModel | src/desktop.rs:1603-1668 | the same for any sequence of edits, with one line break more behind the end marker each; every line of the user's own text is still there |
| SshConfig.EditsKeepOnePair | src/desktop.rs:1603-1668 | any sequence of edits leaves one pair of markers |
| SshConfig.EditFile | src/desktop.rs:1603-1668 | edits of the file itself, on either platform, are edits of its normalised text: the user's own text is still there after any of them, and an unfinished managed part is left alone |
| SshHosts.HostBlockIsOneBlock | src/desktop.rs:1529-1594 | with the checks the installation makes, a host's block reads back as its eight lines and does not end the managed part exactly when neither path breaks a line or holds the end marker |
| SshHosts.BrokenPathIsNotRefused | src/desktop.rs:1529-1567 | a path that breaks a line passes the checks, and its block does not read back |
| SshHosts.MarkerInPathIsNotRefused | src/desktop.rs:1529-1567 | a path that holds the end marker passes them, and the block written holds the marker |
| SshHosts.BlockNamesItsHost | src/desktop.rs:1628-1637 | it is replaced by edits of its own host name or device, and by no others |
| SshHosts.ModelOfSeries | src/desktop.rs:1529-1567 | installing a series of devices edits the list of hosts |
| SshHosts.InstalledHostsAreDistinct | src/desktop.rs:1529-1567 | no two managed hosts share a name or a device, and the last one installed is there |
| SshHosts.InstallationsInAFreshFile | src/desktop.rs:1529-1567 | in a file without markers the managed part lists exactly the hosts a series leaves, and every line of the user's text still stands before it |
| SshCommand.HostSettings | src/desktop.rs:1569-1594 | ssh takes from a host's block its own device as key alias, its user, no shared connection, and its command |
| SshCommand.CommandReadsBack | src/desktop.rs:1585-1590 | whatever the paths, the words of that command are the program, the setup file and the device it was written for |

## Left out

- The Noise handshake, key generation and real cryptography: library code; only the transport laws are assumed.
- JSON text of messages, and the rejection of undecodable payloads: the frame layer works with any lawful serialisation.
- Transport errors that also deliver bytes: an error reported by the transport delivers none.
- The pre-authentication deadlines and the handshake of a connection: they are part of the step that may fail at any time.
- `src/bridge.rs`: a bridge is a phase; what it copies is the library's.
- Registry.Devices.Replace: one order of the critical sections of two agents; all interleavings are covered by `RelayTheorems.ExitNeverEvictsAnother` and `RelayTheorems.ReplacedGenerationIsStopped` on the step system.
- RelayProgress.CountsDown: says nothing about phases that depend on the peer. The greeting, the replies of session and controller handlers and the relay's control loop without heartbeat have no deadline in the code, so a peer that neither reads nor closes can hold its handler and its permit there.
- Token file loading: a step replaces the whole snapshot at any time.
- `DeviceList` carries a set: the order the relay sorts device ids into is not modelled.
- The wording of error messages: reasons of Failed frames are shortened where nothing depends on them.
- The control handler's reader and writer channels are merged into the connection's frame order in `Relay.dfy`; `ServerLoop.dfy` has them in full and shows that they keep the order of requests and frames. No lemma relates its states to those of `Relay.dfy`.
- Task panics and runtime shutdown; the arm for a closed request queue, which the handler itself keeps open.
- Session ids that two requests share: a timed-out controller removes whatever entry its id has, and the model does so too; no theorem needs ids to be fresh.
- Heartbeat.RelayNeverTimesOut: the agent's loop is taken to start within a bounded time of the relay's, a bound the sufficient timing includes, because the code starts the two clocks independently.
- SshConfig.UpdateEdits: blocks are compared up to blank lines at their end, because the code adds some with every rewrite; byte-level idempotence does not hold.
- SshConfig.UpdateKeepsTheRest: on the first edit white space at the end of the user's text is replaced by one blank line, as the code does.
- SshHosts.ModelOfSeries: stated for hosts whose paths neither break a line nor hold the end marker; `install_ssh_host` checks paths for neither, and `SshHosts.HostBlockIsOneBlock` shows that the others do not read back.
- `rewrite_setup_path_in_managed_block`, the migration of a path inside the managed part: one search and replace.
- SshCommand.CommandReadsBack: ssh's own percent expansion in a ProxyCommand is not modelled; the code does not guard against it.
- File permissions, directories and I/O errors around the configuration file.
- The desktop user interface, installer, settings, command line, pairing codes and key files.
