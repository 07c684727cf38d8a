# TunnelBridge, verified

TunnelBridge is a relay. A public server accepts TCP, UDP and Web traffic for tunnels and multiplexes it over
one carrier connection (QUIC, KCP under TLS, or WSS) to a desktop agent, which dials the local targets. This
project models its protocol and its shared state in Dafny 4.11 and proves what the protocol guarantees in every
run. `dafny verify dfyconfig.toml` checks all of it.

## What is modelled

**The relay** (`Pipeline`, `Relay`, `RelayProgress`, `RelayRest`, `RelayStall`, `RelayBytes`, `RelayWitness`). Any
number of streams interleave over one carrier. A direction has, for each stream, the reading half of a bridge, the
256-slot outbound channel, the carrier, the frame router, the 64-slot channel of the stream and the writing half
at the far end; every task takes its own small steps. `Relay` adds the open/answer handshake of both ends, the agent's
heartbeat, which keeps its reader from the carrier until the outbound channel has room, and the lock that a router holds
on a stream's entry while it sends. `RelayBytes` replaces the queue of messages by the bytes of records on networks that
hold a fixed number of them, and refines it. Results: order, integrity and isolation; exact end of stream; every run
without new input is finite, and a relay at rest has delivered everything when every socket accepts, however little the
networks hold; for any set of sockets, handshakes and carriers that do not progress, when exactly a router waits, when
the agent's reader does, and what is delivered all the same; two stalls that need no stuck socket, how they are
reached, how they come to stop both directions, how long they last and which steps end them.

**Frames and records** (`Bytes`, `Protocol`, `Records`, `BridgeLoops`). The byte formats with their round trips
and truncations, the writer and reader loops, what cancelling a read in the middle of a record does, and the two
loops of a bridge.

**The server's shared maps** (`Gateway` and `GatewaySafety`, `GatewayUdp`, `GatewayTotals`, `GatewayRuns`,
`GatewayTrail`, `GatewayBooks`, `GatewaySessions`, `GatewayTickets`). Each connection or UDP session is a task with
a program counter; each access to `pending`, `streams`, `active`, a counter or the connection history is one step;
acknowledgement callers check, remove and answer in three steps; UDP listeners own their tables. Results:
provenance of every active connection, single use of tickets (by refinement to an atomic book), phases that only
advance, what the maps hold when a connection is over, byte conservation, the history rows, the UDP gauge, and the
UDP session tables. `AppState`, `UdpListener` and `Agent` are the same operations as code, on classes with the
source's fields; the methods of `AppState` and `UdpListener` that touch the shared maps are proved to be runs of
`Gateway`.

**Carrier sessions** (`Registry`), **login limiter** (`LoginLimiter`), **host names** (`Hostname`), **tunnel table**
(`TunnelTable`) and **schema migration** (`Migration`), each as code and as a system whose runs are reasoned about.

## Assumptions

- Identifiers from `Uuid::new_v4` are fresh; hashing a ticket is injective (`TicketHash` is a constructor).
- In each direction a carrier is a reliable ordered byte stream. UDP datagrams may be lost or reordered before they
  reach the router; the model starts at the router.
- One access to a concurrent map or counter is one atomic step, but for the relay, where the entry of the stream that a
  router is sending to cannot be removed meanwhile; entries that share its lock are obstacles there (`ServerEntry`,
  `AgentEntry`). The session check and removal at the end of a carrier session are one step; the clock never runs
  backwards; counters stay below 2^64.
- The agent behaves as the desktop program does. A relay is one carrier session.
- Delivery (`RelayRest.EverythingIsDelivered`, `RelayBytes.ByteDelivery`) is about a relay whose sockets go on accepting
  bytes and whose local connection attempts and TLS handshakes end; neither end bounds a write or a TLS handshake in
  time. Without that, `RelayRest.RestOrStall` and `RelayRest.OthersAreDelivered` say what holds for any set of obstacles.
- At message level a carrier takes messages, or is an obstacle as a whole; `RelayBytes` says when it is.
- The JSON codec of control messages decodes what it encoded and fits a record (`RelayBytes.Faithful`).
- Peer addresses are normalised (IPv4-mapped addresses as IPv4) and a tunnel's allowlist is the set of addresses it
  admits.

## Where the code does less than one may expect

Each of these is a lemma, with the exact condition under which the expected property does hold:

- If the open message cannot be sent, or the client of a web request goes away while its handler waits, the
  connection's ticket and stream stay behind, the stream for ever (`GatewayRuns.EndedLeavesNothing`,
  `GatewayRuns.LeaksAreForever`).
- The UDP gauge keeps counting sessions dropped after a failed carrier send and sessions whose listener stopped
  (`GatewayBooks.GaugeCountsLeaks`, `GatewaySessions.GaugeStaysTooHigh`).
- A bridge whose writer to the public socket has failed keeps its channel, which its ended half no longer reads, as
  long as its public peer does not hang up and its idle timeout does not fire. So does a connection whose answer came
  after its ticket had expired, and data can overtake such an answer (`RelayRest.AnswerIsHandledFirst`). Once the channel
  is full, everything the agent sends on that carrier waits behind it (`RelayWitness.CarrierCanStall`,
  `RelayStall.StallBlocksEveryStream`). In the second case the timeout of the wait does not help: it removes the entry
  that the router holds locked before it drops the receiver that the router waits for, so that only a web request's
  client going away ends the stall (`RelayStall.WhatEndsAStall`, `RelayStall.GivingUpEndsTheStall`,
  `RelayStall.HangingUpEndsTheStall`). With nothing stuck these are the only reasons for a router to wait at rest
  (`RelayStall.OnlyStallsHoldUp`).
- Such a stall comes to stop the other direction as well: when the network, the writer and the outbound channel towards
  the server are full, the agent's next heartbeat keeps its reader from the carrier (`RelayRest.RestOrStall`,
  `RelayBytes.ByteRestOrStall`, `RelayWitness.BothDirectionsCanStop`, `RelayBytes.ByteStallStopsBothDirections`).
- The desktop agent reads QUIC and KCP records inside a `select!` with its heartbeat; a heartbeat in the middle of a
  record drops the bytes already read. The record stream survives exactly when no heartbeat does that
  (`Records.SyncIffNothingLost`, `Records.HeartbeatMidRecordDesynchronises`, `RelayBytes.DropReadKeepsIff`), and bytes
  written at a local socket after such a cut can be wrong (`RelayWitness.CutCanCorrupt`).
- First login attempts that overlap are let through beyond the limit: each insertion of a window that another one of the
  same client has overtaken can cost five attempts, and five more for each minute or part of one by which the window it
  overwrites is younger. Without one the limit holds, up to the delay between a call's reading the clock and its access
  to the window (`LoginLimiter.OverlapsAreBounded`, `LoginLimiter.AttemptsAreLimited`,
  `LoginLimiter.OverlappingFirstAttempts`, `LoginLimiter.StaleClocksPass`).
- A payload whose writing fails midway is not counted, though part of it was written (`BridgeLoops.CountedFallsShort`).
- For a moment a registered agent is not yet in a gauge, or no longer (`Registry.AgentsAgainstGauges`).
- Host names depend on the configured base domain being free of trailing white space, colons and not empty
  (`Hostname.IdempotentIff`, `Hostname.RoutableIff`). A name is routed exactly when the TLS ask accepts what precedes
  its first colon, so the two differ on names with a colon, and for a base domain with a colon on every name that the
  ask accepts (`Hostname.RouteIsAskOfPrefix`, `Hostname.AskAgainstRoute`).
- An update of a tunnel that is deleted meanwhile reports success and stores nothing (`TunnelTable.WhatSuccessMeans`);
  one that other updates overlap writes back what it had read in the fields it does not change
  (`TunnelTable.UpdatesAreStored`).
- A version-1 database with a tunnel of a deleted device cannot be migrated while foreign keys are enforced
  (`Migration.MigratesIff`).
- The agent leaves a stream registered when its acceptance cannot be sent, the local TLS handshake fails or a UDP session
  idles (`Agent.Agent.OpenMultiplexedStream`, `Agent.Agent.OpenUdpSession`).

## Model

| member | source | states |
|---|---|---|
| Protocol.EncodeCarrierFrame | crates/protocol/src/lib.rs:321-327 | pushing kind, identifier and payload gives the encoding that `DecodeInvertsEncode` decodes, 17 bytes longer than the payload |
| Protocol.DecodeInvertsEncode | crates/protocol/src/lib.rs:321-335 | a buffer decodes to a frame exactly when it is that frame's encoding, and to nothing exactly when it is shorter than 17 bytes |
| Bytes.LengthFieldRoundTrip | server/src/quic.rs:166 | the big-endian 32-bit length field reads back as the length modulo 2^32 |
| Records.RecordRoundTrip | server/src/quic.rs:164-183 | a written record is read back with the rest untouched exactly when its payload is at most 16 MiB |
| Records.ReadIsWrite | server/src/quic.rs:164-171 | whatever the reader accepts is, byte for byte, what the writer writes for that record |
| Records.ReadExtends | server/src/quic.rs:164-171 | bytes arriving later never change a record already complete |
| Records.ParseIsSerialize | server/src/quic.rs:164-183 | any byte stream is the serialisation of the records parsed from it followed by the unread rest |
| Records.StreamRoundTrip | server/src/quic.rs:164-183 | parsing the concatenation of written records returns exactly those records and leaves nothing |
| Records.TruncationYieldsPrefix | desktop/src-tauri/src/agent.rs:540-561 | cutting the stream anywhere yields exactly the records wholly inside the cut, and none is rejected |
| Records.FramesSurviveTheCarrier | crates/protocol/src/lib.rs:321-335 | carrier frames sent as binary records come back with kind, identifier and payload, in order |
| Records.ByteChannel.WriteOne | server/src/quic.rs:173-183 | appends exactly the bytes of the record |
| Records.ByteChannel.WriteEach | server/src/quic.rs:96-116 | the writer loop appends the records' serialisation in order |
| Records.ByteChannel.ReadOne | server/src/quic.rs:164-171 | succeeds exactly when a whole record of allowed size is there, returns it and leaves the rest |
| Records.ByteChannel.ReadUntilError | server/src/quic.rs:126-148 | the reader loop returns all records before the first it cannot read |
| Records.SyncIffNothingLost | desktop/src-tauri/src/agent.rs:402-424 | after any run with cancelled reads, the records delivered and still to come are those sent exactly when no cancelled read had taken a byte |
| Records.HeartbeatMidRecordDesynchronises | desktop/src-tauri/src/kcp.rs:113-134 | for every stream of records and every cut inside the first one still to be read, a cancelled read loses exactly the bytes taken, and what is delivered from then on is not what was sent |
| Records.HeartbeatMidFrameDesynchronises | desktop/src-tauri/src/agent.rs:402-424 | the same for a single record that carries a frame of any kind and length the relay sends |
| Pipeline.StepKeepsDirOk | server/src/gateway.rs:275-341 | every step of every task of a direction keeps: frames handed over are those consumed, queued and on the way, in order; written bytes match consumed frames |
| Pipeline.WrittenIsPrefixOfRead | server/src/gateway.rs:287-336 | under the invariant, what is written at the far socket is a prefix of what was read at the near one |
| Pipeline.ShutMeansComplete | server/src/gateway.rs:332-335 | once a FIN has shut the far writer down, every byte read has been written |
| Relay.StepKeepsRelayOk | desktop/src-tauri/src/agent.rs:636-691 | every handshake, data and heartbeat step, ignored late answers and dropped web requests included, keeps the invariant of both ends, both directions and all connections |
| Relay.StreamIntegrity | server/src/gateway.rs:275-341 | after any run from the start, the bytes written for a stream are a prefix of the bytes that reached its own near socket, in either direction |
| Relay.FinIsExact | server/src/gateway.rs:287-336 | per stream and direction at most one FIN, after the last data frame; when it has shut the far writer, exactly the bytes that arrived have been written |
| Relay.NoFrameWithoutReceiver | server/src/gateway.rs:148-157 | registration precedes traffic: no frame is sent before the far end has a receiver, and none is lost while it exists |
| Relay.HalfCloseKeepsTheOtherWay | desktop/src-tauri/src/agent.rs:706-759 | receivers and map entries at both ends stay until both directions are over there |
| RelayProgress.InternalStepsDecrease | server/src/quic.rs:96-116 | every step the relay takes by itself strictly decreases a measure of bytes and frames weighted by remaining hops |
| RelayProgress.RunsAreBounded | server/src/gateway.rs:275-341 | without new input or failures, at most that many more steps can follow |
| RelayRest.AnswerIsHandledFirst | server/src/gateway.rs:243-248 | while the server waits for an answer, data of that stream has overtaken it only if the answer was taken and ignored |
| RelayRest.RestMeansDelivered | server/src/gateway.rs:275-341 | at rest, an unfailed connection that was not refused has delivered both ways; a refused one is registered nowhere |
| RelayRest.EverythingIsDelivered | server/src/gateway.rs:147-341 | a run without failures that comes to rest, every socket accepting, has written every arrived byte and shut every closed direction of each connection whose target could be dialled, despite the bounded channels, the heartbeats and the locks; the others are registered nowhere |
| RelayRest.RefusedIff | desktop/src-tauri/src/agent.rs:640-660 | over any run a connection comes to be refused exactly if dialling its local target failed |
| RelayRest.HeartbeatsAreAnswered | server/src/quic.rs:137-139 | the heartbeats started are those answered, those waiting to be sent and the pings and pongs on their way; a failure-free run at rest has answered all |
| RelayRest.OthersAreDelivered | server/src/gateway.rs:147-341 | whatever sockets and handshakes of other streams are stuck, an unstuck stream has been delivered at rest if no router waits and no carrier is stuck |
| RelayRest.RestOrStall | server/src/gateway.rs:261-273 | at rest under any obstacles: the agent's router waits exactly behind a full channel whose local socket or TLS handshake is stuck; the server's exactly behind one whose public socket is stuck, whose answer was ignored, or whose public writer failed while its reading half goes on; the agent's reader waits with a heartbeat only when the outbound channel is full and the carrier to the server stuck; a direction whose reader is free is empty |
| RelayRest.HeartbeatHoldsTheReader | desktop/src-tauri/src/agent.rs:402-408 | and then it always comes to wait: one tick of the heartbeat away the reader is held and the relay at rest again |
| RelayWitness.CarrierCanStall | server/src/gateway.rs:243-340 | over any carrier, for every stream and in either way, a stall is reachable by a run that cuts no record, with the relay at rest and nothing stuck |
| RelayWitness.StallsAreReachable | server/src/gateway.rs:243-340 | the same at message level |
| RelayWitness.BothDirectionsCanStop | desktop/src-tauri/src/agent.rs:402-408 | over any carrier either stall comes to fill network, writer and outbound channel and to hold the agent's reader with its heartbeat |
| RelayStall.StallBlocksEveryStream | server/src/quic.rs:131-134 | from a reachable stall on, in every run without the one step that gives its stream up, the stall persists, nothing is taken off the agent's carrier and no stream gets another frame |
| RelayStall.StallStopsBothDirections | desktop/src-tauri/src/agent.rs:402-408 | with a heartbeat waiting at a full outbound channel, and as long as the carrier takes nothing, neither end takes anything off its carrier |
| RelayStall.WhatEndsAJam | desktop/src-tauri/src/agent.rs:406-408 | exactly the carrier taking a message ends the reader's wait |
| RelayStall.WhatEndsAStall | server/src/gateway.rs:172-188 | of all possible steps exactly these end a stall: behind a failed writer the peer's hangup or the bridge's timeout or read error, behind an ignored answer the web client's going away - never the timeout of the wait |
| RelayStall.GivingUpEndsTheStall | server/src/gateway.rs:289-292 | after the bridge's idle timeout, or when the waiting web request is dropped, the router can move on |
| RelayStall.HangingUpEndsTheStall | server/src/gateway.rs:293-299 | and wherever the relay comes to rest after the public peer has hung up, no router holds a frame of the stream |
| RelayStall.OnlyStallsHoldUp | server/src/gateway.rs:261-273 | at rest with no socket, handshake or carrier stuck, neither the agent's router nor its reader waits, and the server's router waits exactly when some stream has stalled it |
| RelayBytes.StepRefines | server/src/quic.rs:96-148 | every byte-level step of writer, network and reader that loses no byte is one message-level step or none |
| RelayBytes.DropReadKeepsIff | desktop/src-tauri/src/agent.rs:402-424 | a read dropped by the heartbeat keeps the carrier in step with the message-level relay exactly when it had taken no byte |
| RelayBytes.ByteStreamIntegrity | server/src/quic.rs:164-183 | stream integrity and exact end of stream over real record bytes, however they are split, in every run whose heartbeats cut no record |
| RelayBytes.CInternalStepsDecrease | server/src/quic.rs:96-116 | every internal byte-level step decreases one measure of messages and carrier bytes |
| RelayBytes.CRunsAreBounded | server/src/quic.rs:96-148 | without new input, failures or heartbeats at most that many byte-level steps can follow |
| RelayBytes.RestRefines | server/src/quic.rs:126-148 | under any obstacles, when no byte-level step is possible, no message-level step is, but over a carrier that holds up its writer |
| RelayBytes.ByteRestOrStall | desktop/src-tauri/src/agent.rs:402-424 | at rest over networks of any size: the routers wait exactly as at message level; the agent's reader waits with a heartbeat only when outbound channel, writer and network are full and the server's router waits; a direction whose reader is free is empty |
| RelayBytes.ByteStallStopsBothDirections | server/src/quic.rs:131-134 | from a reachable stall with everything full on, in every run without the step that gives its stream up, neither end reads a byte |
| RelayBytes.ByteDelivery | server/src/quic.rs:96-148 | a failure-free byte-level run at rest whose heartbeats cut no record has delivered everything, every socket accepting, however little the networks hold |
| RelayWitness.CutCanCorrupt | desktop/src-tauri/src/agent.rs:402-424 | over any carrier some run with one cut writes bytes at a local socket that are not a prefix of what the public one received |
| BridgeLoops.UpFramesInOrder | server/src/gateway.rs:287-316 | the upstream loop sends its own connection's data in the order read, and at most one FIN, last; `FinIffEof` says when it does |
| BridgeLoops.UpFramesExactly | desktop/src-tauri/src/agent.rs:706-730 | the frames of the upstream loop, one for each read up to its last turn: kind 2 with the bytes read, then kind 3 exactly when that turn read the end of file and the carrier took it |
| BridgeLoops.FinIffEof | server/src/gateway.rs:287-336 | a FIN is sent exactly for an end of file read after everything before it was sent; it is then the last frame, and the far loop given these frames ends exactly at it and shuts its socket down |
| BridgeLoops.DownTurnsExactly | server/src/gateway.rs:313-336 | up to its last turn the downstream loop writes and counts the payloads of the data frames, writes of the failing one the accepted part without counting it, and shuts the socket down exactly when that turn is a FIN |
| BridgeLoops.UpFramesAreOrderly | server/src/gateway.rs:287-316 | with reads of 1 byte to 32 KiB its frames are what the relay's invariant asks for |
| BridgeLoops.FarEndWritesWhatNearEndRead | desktop/src-tauri/src/agent.rs:706-754 | one end's loop against the other's: what was read and sent is what is written |
| BridgeLoops.CountedFallsShort | server/src/gateway.rs:320-326 | what is counted is the first part of what is written, short exactly of the accepted bytes of the one payload whose writing failed |
| Agent.Agent.RouteLocalFrame | desktop/src-tauri/src/agent.rs:532-538 | a frame goes unchanged to its own stream's channel, or nowhere, or waits for room there |
| Agent.Agent.Upstream | desktop/src-tauri/src/agent.rs:706-733 | sends exactly the frames of `UpFramesExactly` and counts exactly their payload |
| Agent.Agent.Downstream | desktop/src-tauri/src/agent.rs:734-754 | writes exactly the payloads before the first FIN, RESET or failure and the part of the failing one that was accepted; counts exactly those written whole; shuts the socket down exactly at a FIN |
| Agent.Agent.OpenMultiplexedStream | desktop/src-tauri/src/agent.rs:636-691 | registration, then the answer, then data, then removal; other streams untouched; an acceptance that cannot be sent or a failed local TLS handshake leaves the stream registered |
| Agent.Agent.OpenUdpSession | desktop/src-tauri/src/agent.rs:563-634 | no answer without a local socket; datagrams both ways under the session's own identifier; the stream is taken out exactly when the server's side closed it |
| Agent.UdpPassesOn | desktop/src-tauri/src/agent.rs:598-628 | every datagram passed on is one that came in, unchanged |
| Agent.UdpTurnsExactly | desktop/src-tauri/src/agent.rs:598-634 | up to the turn that ends the session the payload of every datagram frame goes to the local target and every local datagram to the server; the stream is taken out exactly when that turn is the server closing it |
| Gateway.MoveKeepsLocalOk | server/src/gateway.rs:143-227 | every step on one connection keeps map entries, acknowledgements and byte totals consistent with its phase |
| GatewaySafety.StepIsPart | server/src/gateway.rs:119-273 | every server step is one move on one connection, one birth, or touches no connection |
| GatewaySafety.StepKeepsCalls | server/src/gateway.rs:239-258 | what an acknowledgement caller checked stays true of its connection until it acts on it |
| GatewayRuns.StepKeepsServerOk | server/src/gateway.rs:119-428 | every step of every task keeps the whole invariant |
| GatewayRuns.PendingWithinStreams | server/src/gateway.rs:148-200 | in every reachable state `pending` is within `streams` and disjoint from `active` |
| GatewayRuns.ActiveProvenance | server/src/gateway.rs:125-200 | every active connection comes from an address in its tunnel's allowlist, its open message was sent, and exactly one accepting acknowledgement came, from its tunnel's agent, with its ticket, unexpired when checked |
| GatewayTrail.ActiveTrail | server/src/udp.rs:63-164 | the run itself contains exactly one source check of an address in the allowlist, one open message and one accepting acknowledgement |
| GatewayTrail.TicketsAreSingleUse | server/src/e2e_tests.rs:104-111 | over a whole run at most one acknowledgement of an identifier succeeds, and only one from the tunnel's agent with the connection's ticket before its expiry |
| GatewayTickets.StepRefinesTickets | server/src/gateway.rs:239-258 | check-then-remove by any number of callers, with timeouts and cleanup, refines one atomic check-and-consume |
| GatewayTickets.BooksUseTicketsOnce | server/src/gateway.rs:239-258 | an atomic book never uses a ticket twice nor one it did not issue |
| GatewayTickets.ServerIsAnAtomicBook | server/src/gateway.rs:231-259 | every server run is a run of the atomic book, so at most one acknowledgement of a connection ever succeeds, and its ticket is gone |
| GatewayTickets.CallerIsToldTheTruth | server/src/gateway.rs:249-258 | a caller succeeds exactly when its removal is the atomic use; a removal that fails finds the ticket used, withdrawn or expired |
| GatewayRuns.StepTouchesOne | server/src/gateway.rs:172-228 | a step changes the entries of at most one connection |
| GatewayRuns.ForwardOnly | server/src/gateway.rs:148-228 | over any run a connection only advances through its phases and keeps its identity |
| GatewayRuns.EndedLeavesNothing | server/src/gateway.rs:172-228 | an ended connection is in none of the maps exactly when its open message was sent and it was neither a forgotten UDP session nor a web request dropped while it waited |
| GatewayRuns.LeaksAreForever | server/src/gateway.rs:364-396 | what the early return, the dropped web request and the failed UDP send leave behind stays in every continuation |
| GatewayBooks.BytesAreConserved | server/src/state.rs:118-126 | the global counters are the live connections' entries and what they are owed, plus closed totals, plus the lengths of the datagrams each UDP session handed to the agent and sent to its peer |
| GatewayBooks.HistoryIsFinal | server/src/gateway.rs:210-227 | at most one history row per connection, exactly for bridged TCP connections that closed, with everything the run forwarded |
| GatewayTotals.StepKeepsSums | server/src/gateway.rs:306-326 | every step keeps the counters equal to the sums over connections |
| GatewayBooks.GaugeCountsLeaks | server/src/udp.rs:150 | the UDP gauge is table entries plus leaked sessions plus those in transit; never negative, and exact exactly when nothing leaked or is in transit |
| GatewaySessions.LeaksOnlyGrow | server/src/udp.rs:96-99 | leaked sessions stay counted in every continuation |
| GatewaySessions.GaugeStaysTooHigh | server/src/udp.rs:88-99 | after one failed carrier send or stopped listener the gauge stays above the live sessions |
| GatewayUdp.StepKeepsTables | server/src/udp.rs:43-99 | every step keeps tables and sessions in one-to-one correspondence |
| GatewaySessions.SessionIsRegistered | server/src/udp.rs:67-82 | a table entry has its stream and active entries for that tunnel and peer |
| GatewaySessions.SessionsAreDistinct | server/src/udp.rs:67-82 | no two peers or listeners share a session |
| GatewaySessions.PeersGetTheirOwnReplies | server/src/udp.rs:166-175 | what a peer is sent is the payloads of datagram frames with its own session's identifier, unchanged and in order |
| GatewaySessions.RepliesReachThePeer | server/src/udp.rs:166-175 | until its response task has ended, a frame that the agent sends on a listed session with room in its channel is taken and, after those before it, sent to the peer and counted if it is a datagram |
| GatewaySessions.AgentsGetTheirPeersDatagrams | server/src/udp.rs:61-92 | what the agent is handed under a session's identifier is a subsequence of what the listener received from this session's own peer, and exactly what is counted down for it |
| GatewaySessions.SessionSurvives | server/src/udp.rs:49-60 | a session is not evicted before its timeout has passed since its last inbound datagram, in any run |
| GatewaySessions.HearingRestarts | server/src/udp.rs:67-69 | an inbound datagram gives its session the whole timeout again, whatever follows but a failed send or a stop |
| AppState.AppState.AcknowledgeConnection | server/src/gateway.rs:231-259 | succeeds exactly when the ticket is pending for that agent, with that hash and unexpired; then it is gone, and a task that waits or is about to has the answer; a run of the system |
| AppState.AcknowledgedTaskGoesOn | server/src/gateway.rs:172-259 | agent, ticket and expiry suffice: check, removal, answer and hearing it are possible for a waiting task, which then is accepted or withdraws as the agent said |
| AppState.AnswersAreHeard | server/src/gateway.rs:172-259 | whatever comes between, a caller's answer reaches the task it was removed for: when that waits it hears this answer and cannot time out instead |
| AppState.AppState.Cleanup | server/src/api.rs:912-914 | the retain loop keeps exactly the unexpired tickets; a run of cleanup steps of the system |
| AppState.AppState.BeginConnection | server/src/gateway.rs:343-373 | denied exactly for an address outside the allowlist, offline exactly when the agent is not there, else registered; its counters and its entries; a run of the system |
| AppState.AppState.SendOpenMessage | server/src/gateway.rs:374-384 | the open message, in any later state; a run of the system |
| AppState.AppState.OpenConnection | server/src/gateway.rs:119-171 | both without a wait between them, as for a TCP connection: denied exactly for an address outside the allowlist; a run of the system |
| AppState.OthersKeepTheTask | server/src/gateway.rs:148-228 | over any run of the other tasks a connection's task finds its phase, entries and unpaid totals as it left them, so its stretches compose under every interleaving |
| AppState.AppState.UpTurn | server/src/gateway.rs:287-312 | one turn of the upstream loop: a data frame, a FIN at the end of file or nothing; counted globally and for the connection once the carrier has it |
| AppState.AppState.DownTurn | server/src/gateway.rs:313-336 | one turn of the downstream loop: the bytes written, counted the same way if the payload was written whole, and whether the socket is shut down |
| AppState.AppState.JoinLoops | server/src/gateway.rs:284-340 | for every interleaving of the two loops: each sends, writes and shuts down what it would alone, and the counters gain exactly its counted payload |
| AppState.AppState.FinishConnection | server/src/gateway.rs:172-228 | whatever the answer and the sockets do, the connection leaves all maps, others are untouched, and counters and history carry exactly the forwarded bytes |
| UdpListener.UdpListener.Start | server/src/udp.rs:27-46 | without its socket there is no listener and a failure is counted; else an empty table; a run of the system |
| UdpListener.UdpListener.Sweep | server/src/udp.rs:49-60 | exactly the sessions not heard of for the timeout go, with their entries and one gauge count each; a run of the system |
| UdpListener.UdpListener.Receive | server/src/udp.rs:61-93 | rejected exactly for an address outside the allowlist; outcome, table, entries, counters and frame for each other branch of an inbound datagram, up to the wait for a new session's answer; a run of the system |
| UdpListener.UdpListener.Resume | server/src/udp.rs:139-164 | from the answer on: an accepted session is counted, active and in the table and its datagram forwarded, any other is taken back; a run of the system |
| UdpListener.UdpListener.Stop | server/src/udp.rs:96-99 | every session loses its entries and the gauge does not change; a run of the system |
| Registry.AgentsHoldTheLatest | server/src/quic.rs:72-86 | `agents` has exactly the most recently registered session of each device, while it is alive and not revoked |
| Registry.EntryLastsUntil | server/src/quic.rs:152-158 | over any run a session keeps its entry exactly if its device neither registered again nor was revoked and the session did not end; once gone it never comes back |
| Registry.GaugesCountSessions | server/src/kcp.rs:83-162 | each transport's gauge is the number of its counted sessions and never negative |
| Registry.AgentsAgainstGauges | server/src/api.rs:606-714 | agents plus counted sessions without an entry equal gauges plus entries not counted; so agents are within the gauges exactly when the latter do not outnumber the former |
| Registry.EntryPrecedesGauge | server/src/api.rs:606-635 | a moment with more agents than the gauges is reachable |
| Registry.AgentsWithinGauges | server/src/quic.rs:72-159 | with no session between entry and gauge, agents are within the gauges |
| Registry.AgentRegistry.Enter | server/src/quic.rs:72-86 | entry, then gauge: the device's entry is this session and its transport's gauge one higher |
| Registry.AgentRegistry.Exit | server/src/api.rs:703-714 | unregister and uncount in the order of the transport: the entry goes only if it is still this session's, the gauge is one lower |
| Registry.AgentRegistry.RevokeDevice | server/src/api.rs:267-269 | the device has no entry afterwards and the session it had is the one cancelled |
| LoginLimiter.LoginLimiter.LoginAllowed | server/src/auth.rs:52-77 | one undisturbed call: a window older than sixty seconds or none starts anew, five attempts in one are the most; acts as one attempt on the client's window |
| LoginLimiter.CallIsOneAttempt | server/src/auth.rs:52-77 | the events of an undisturbed call - reading the clock, the access, and an insertion if there was no window - make that same change and let the same attempts through |
| LoginLimiter.LoginLimiter.SignedIn | server/src/api.rs:135 | clears the client's window and no other |
| LoginLimiter.CountsStayInRange | server/src/auth.rs:52-77 | in every run from the start, however calls overlap, stored counts stay between 1 and 5 |
| LoginLimiter.OverlapsAreBounded | server/src/auth.rs:52-77 | if calls act at most a delay after reading the clock, in any interval of length L without a successful login at most 5 * ceil((L + delay) / 60 s) + 4 attempts pass (5 if L + delay = 0), plus 5 for each insertion overtaken by another one of the client, and 5 for each minute or part of one by which the window it overwrites is younger |
| LoginLimiter.AttemptsAreLimited | server/src/auth.rs:52-77 | the limit itself, up to that delay, holds of every run in which no insertion of the client is overtaken: 5 * ceil((L + delay) / 60 s) + 4 |
| LoginLimiter.BoundIsReached | server/src/auth.rs:55-66 | for n minutes some run without overtaking or delay reaches 5 n + 4 |
| LoginLimiter.OverlappingFirstAttempts | server/src/auth.rs:54-75 | n calls that look before any inserts let 5 n attempts through at one instant, exactly the limit and the worth of the n - 1 overtaken insertions |
| LoginLimiter.StaleClocksPass | server/src/auth.rs:53-60 | n calls that nobody overtakes but that act up to n - 1 windows after reading the clock are all let through at one instant |
| Hostname.NormalizesTo | server/src/tunnels.rs:341-363 | exactly which inputs normalise to a label's full name, and which labels there are: 1 to 63 lower-case letters, digits and inner hyphens |
| Hostname.BaseDomainIff | server/src/config.rs:59-62 | the base domains that a configuration can give are exactly those assumed elsewhere: no upper-case letter, no dot at either end |
| Hostname.NormalizedForm | server/src/tunnels.rs:349-362 | only a valid label under the base domain comes out |
| Hostname.AllFormsAgree | server/src/tunnels.rs:341-363 | any case of the label or its full name, with white space and dots around, normalise to the same name |
| Hostname.IdempotentIff | server/src/tunnels.rs:341-363 | normalising again changes nothing exactly when the base domain does not end in white space or is nothing else |
| Hostname.RoutingFindsTheTunnel | server/src/api.rs:752-772 | a request for any variant of a stored name finds exactly that tunnel |
| Hostname.RoutableIff | server/src/api.rs:752-772 | some request reaches a stored name exactly when the base domain is not empty and has no colon |
| Hostname.AskIsLookup | server/src/tunnels.rs:37-57 | the count query and the row query agree, and the row is the only one |
| Hostname.RouteIsAskOfPrefix | server/src/api.rs:739-772 | for every table a name is routed exactly when the TLS ask accepts what precedes its first colon |
| Hostname.AskAgainstRoute | server/src/api.rs:739-772 | ask and routing agree on a name exactly when, for a base domain with a colon, the ask refuses it, and otherwise it has no colon or the ask refuses what precedes it |
| TunnelTable.Tunnels.AllocatePort | server/src/tunnels.rs:252-265 | the least port of the pool that no tunnel of the kind has, or none exactly when the pool is full |
| TunnelTable.FullPoolHasAsManyTunnels | server/src/tunnels.rs:252-265 | an exhausted pool has a tunnel of that kind for each of its ports |
| TunnelTable.Tunnels.Create | server/src/tunnels.rs:59-131 | which requests fail and how, a device that is no longer there included; what is stored, field by field, and that no other tunnel has its endpoint; and that the table stays well formed |
| TunnelTable.Tunnels.ValidateCreate | server/src/tunnels.rs:267-297 | the checks in their order accept exactly the valid requests |
| TunnelTable.Tunnels.ValidateTunnel | server/src/tunnels.rs:299-323 | the same for an edited tunnel |
| TunnelTable.Tunnels.ValidateKindScheme | server/src/tunnels.rs:325-339 | TCP with TCP, UDP with UDP, Web with HTTP or HTTPS |
| TunnelTable.Tunnels.ValidateLocalHost | server/src/tunnels.rs:365-378 | a trimmed host of 1 to 253 bytes without white space that is a loopback address or explicitly allowed |
| TunnelTable.CreatesAreStored | server/src/tunnels.rs:59-131 | a create written after any run of other calls stores what was asked for, field by field, or nothing; it is stored exactly if its device is there and its endpoint free |
| TunnelTable.Tunnels.Edit | server/src/tunnels.rs:138-191 | field-by-field editing equals the edited row, or fails exactly for an invalid change |
| TunnelTable.Tunnels.Update | server/src/tunnels.rs:133-221 | exactly when each error is returned; else the row has every field asked for, all others as they were, kind and owner among them |
| TunnelTable.UpdatesAreStored | server/src/tunnels.rs:133-221 | an update written after any run of other calls stores the row it had read with the fields asked for, over what others wrote meanwhile, if the row is still there and its endpoint free |
| TunnelTable.Tunnels.Delete | server/src/tunnels.rs:223-233 | removes exactly the owner's tunnel or nothing |
| TunnelTable.EditedIsWellFormed | server/src/tunnels.rs:299-339 | a valid update of a well-formed tunnel is well formed and keeps kind and owner |
| TunnelTable.TablesStayWellFormed | server/src/db.rs:115-149 | over interleaved creates, updates and deletes of tunnels and devices every stored tunnel is well formed and belongs to a device, and no two clash |
| TunnelTable.KindIsImmutable | server/src/tunnels.rs:165-171 | kind and owner never change while a tunnel exists, and a deleted one never returns |
| TunnelTable.TunnelLastsUntil | server/src/tunnels.rs:223-233 | over any run a tunnel stays exactly until it is deleted or its device is |
| TunnelTable.WhatSuccessMeans | server/src/tunnels.rs:213-220 | exactly when a caller is told of a conflict or a missing device; success means stored, except for an update whose row was deleted meanwhile |
| TunnelTable.StoredNamesAreRouted | server/src/db.rs:144 | in every reachable table, any variant of an enabled web tunnel's name is routed to it and accepted by the TLS ask |
| TunnelTable.RoutedExactly | server/src/tunnels.rs:37-57 | in every reachable table a request reaches a tunnel exactly when that is an enabled web tunnel with the name before the first colon, whatever the case and trailing dots; and when exactly the TLS ask accepts a name |
| TunnelTable.AskMeetsRouting | server/src/api.rs:739-772 | in every reachable table, when exactly the TLS ask and routing agree on a name |
| Migration.Database.Migrate | server/src/db.rs:28-113 | stopped after k statements, it has done exactly the first k of the plan for the schema it found |
| Migration.Database.ConvertTunnels | server/src/db.rs:92-110 | the transaction works exactly when foreign keys are not enforced or no tunnel's device is missing; then every row is a TCP tunnel with its port and all else as before, otherwise nothing changes |
| Migration.SoundMeans | server/src/db.rs:138-149 | what the unique indexes allow: one TCP and one UDP tunnel for each port, one web tunnel for each name in any case; in version 1 one tunnel for each port |
| Migration.TargetMeans | server/src/db.rs:28-113 | what a migration ends with: all tables and indexes, and the rows, each version-1 row field by field |
| Migration.OldRowsPassNewConstraints | server/src/db.rs:115-149 | check and unique constraints cannot fail on version-1 rows |
| Migration.StoppingKeepsTarget | server/src/db.rs:69-113 | stopping anywhere leaves a state that leads to the same end |
| Migration.MigrationConverges | server/src/db.rs:28-149 | if no tunnel's device is missing under enforced foreign keys: however often it is stopped, a complete run ends with the same schema, indexes and rows, and running it again changes nothing |
| Migration.OldTunnelsAreKept | server/src/db.rs:97-106 | every version-1 row is there afterwards as a TCP tunnel on the same port, and no others |
| Migration.MigratesIff | server/src/db.rs:115-117 | it completes exactly when no tunnel's device is missing under enforced foreign keys; otherwise the old rows stay |

## Left out

- RelayBytes.ByteStreamIntegrity: runs in which a heartbeat cuts a record; `Records.SyncIffNothingLost` says what happens to the records then.
- Relay.StreamIntegrity: registering a connection and sending its open message are one step; their separate steps are in `Gateway`. An answer that the carrier does not take ends the carrier session, and with it the relay; `Agent` has its side of that.
- AppState.AppState.FinishConnection: other tasks do not run in between; its stretches are methods of their own, and `OthersKeepTheTask` says that any run of others may come between them.
- Which other entries share a lock with the one a router holds, and so wait for it; they are obstacles, not computed.
- TLS, QUIC, KCP, WebSocket, HTTP and SQL libraries: carriers are byte streams and the database is a map with constraints.
- Lost or reordered QUIC datagrams on the way to the router, and the fallback from a datagram to a record.
- Which of several carrier sessions of one device a connection uses, and reconnecting with back-off.
- Binding listeners, reconciling them after an update, and their bind races.
- The counters of rejected and failed connections beyond the methods of `AppState` and `UdpListener`, and of HTTP requests.
- Passwords, sessions, cookies, CSRF, device tokens, audit log, GeoIP, configuration parsing and control-message JSON.
- CIDR matching, IPv4-mapped addresses and forwarded-address parsing.
- The HTTP exchange over a Web tunnel after its stream is open.
- Time stamps, status and ordering columns of tunnels, and the agent's event log and metrics beyond byte totals.
- desktop/src-tauri/src/kcp.rs beyond its record reader: the same shape as the QUIC path of agent.rs.
