/** The server's shared maps under interleaved tasks. Each public connection or UDP session has a task
    with a program counter (`Phase`); every access to a shared map or counter is one atomic step, so
    any number of tasks, acknowledgement callers, UDP listeners and the cleanup task interleave. */
module Gateway {
  import opened Bytes
  import opened Protocol
  import opened Sums
  import Pipeline

  datatype Peer = Peer(ip: nat, port: nat)

  /** `sources` is the set of addresses that the tunnel's allowlist admits. */
  datatype Tunnel = Tunnel(id: Uuid, agent: Uuid, kind: Kind, sources: set<nat>)

  /** Tickets are stored only as hashes, and hashing is taken to be injective. */
  datatype TicketHash = TicketHash(ticket: nat)

  datatype Pending = Pending(agent: Uuid, hash: TicketHash, expires: nat)

  datatype Active = Active(tunnel: Uuid, peer: Peer, kind: Kind, up: nat, down: nat)

  datatype Row = Row(id: Uuid, tunnel: Uuid, up: nat, down: nat)

  /** Why a connection is being taken out of the maps: its bridge ended, it was evicted for idleness, or
      its UDP listener stopped. */
  datatype Why = Bridged | Evicted | Stopped

  /** Where the task of a connection is. `Abandoned` is the early return when the open message cannot be
      sent; `Dropped` is a web request whose client went away while its handler awaited the peer's location
      or the agent's answer; `Forgotten` is a UDP session dropped from its table after a failed carrier send. */
  datatype Phase =
    | Admitted | Streamed | Pended | Waiting | Abandoned | Dropped
    | Withdrawing | Unstreaming | Refused
    | Accepted | Counted | Opened | Listed | Forgotten
    | Closing(why: Why) | Departing(why: Why) | Uncounting | Closed(why: Why)

  /** A successful acknowledgement: who sent it, with which ticket, and when it was checked. */
  datatype Ack = Ack(agent: Uuid, ticket: nat, accepted: bool, at: nat)

  /** `answer` is the oneshot channel. `asked` and `acks` record that the open message was sent and the
      acknowledgements that succeeded; `up` and `down` all payload bytes counted for this connection, of
      which `owedUp` and `owedDown` are not yet in its `active` entry. `inbox` is the channel of a UDP
      session, `routed` everything ever put into it, `sent` the datagrams sent to the peer and `handed` those
      of the peer that the agent's carrier took. */
  datatype Conn = Conn(
    tunnel: Tunnel, peer: Peer, listener: nat, ticket: nat, expires: nat, phase: Phase, answer: Option<bool>,
    asked: bool, acks: seq<Ack>, up: nat, down: nat, owedUp: nat, owedDown: nat,
    inbox: seq<CarrierFrame>, routed: seq<CarrierFrame>, sent: seq<seq<byte>>, handed: seq<seq<byte>>, replying: bool)

  datatype CallStage = Checked | Removed

  /** An acknowledgement caller that has passed the check. */
  datatype Call = Call(id: Uuid, ack: Ack, stage: CallStage)

  datatype Session = Session(id: Uuid, lastSeen: nat)

  /** A datagram that a UDP listener's socket has received. */
  datatype Datagram = Datagram(peer: Peer, bytes: seq<byte>)

  /** One UDP listener task. `inbound` is the datagram it is dealing with, `busy` the session it is opening or
      evicting; it does one thing at a time. */
  datatype Listener = Listener(
    tunnel: Tunnel, running: bool, busy: Option<Uuid>, sessions: map<Peer, Session>, inbound: Option<Datagram>)

  datatype Server = Server(
    now: nat, ttl: nat, udpTimeout: nat,
    pending: map<Uuid, Pending>, streams: set<Uuid>, active: map<Uuid, Active>,
    bytesUp: nat, bytesDown: nat, activeUdp: int, history: seq<Row>,
    conns: map<Uuid, Conn>, calls: map<nat, Call>, listeners: map<nat, Listener>)

  function Initial(ttl: nat, udpTimeout: nat): Server {
    Server(0, ttl, udpTimeout, map[], {}, map[], 0, 0, 0, [], map[], map[], map[])
  }

  // ---------------------------------------------------------------- one connection

  /** What the server holds for one connection: its task and its entries in the three maps. */
  datatype Local = Local(conn: Conn, pend: Option<Pending>, streamed: bool, act: Option<Active>)

  /** The atomic steps on one connection's entries. */
  datatype Move =
    | AddStream
    | AddPending(expires: nat)
    | SendOpen(ok: bool)
    | HearAnswer
    | GiveUp                 // timeout, or the answer channel was dropped
    | Drop                   // the handler of a web request is dropped where it awaits
    | DropPending
    | DropStream
    | CountUdp
    | Activate
    | CountUp(n: nat)
    | CreditUp
    | CountDown(n: nat)
    | CreditDown
    | EndBridge
    | DropActive
    | Uncount
    | Purge(at: nat)         // hourly cleanup of an expired ticket
    | Consume(ack: Ack)      // the removal inside an acknowledgement
    | Deliver(accepted: bool)
    | List                   // the UDP listener enters the session in its table
    | Unlist(why: Why)
    | Forget
    | Hand(datagram: seq<byte>)  // one datagram frame of the session to the agent's carrier
    | Route(frame: CarrierFrame)
    | Reply
    | StopReplying

  predicate IsUdp(c: Conn) {
    c.tunnel.kind == Udp
  }

  /** The agent's answer can still reach the task. */
  predicate Hears(p: Phase) {
    p == Pended || p == Waiting
  }

  predicate MoveAllowed(l: Local, m: Move) {
    var c := l.conn;
    match m
    case AddStream => c.phase == Admitted
    case AddPending(_) => c.phase == Streamed
    case SendOpen(_) => c.phase == Pended
    case HearAnswer => c.phase == Waiting && c.answer.Some?
    case GiveUp => c.phase == Waiting && c.answer == None
    case Drop => c.tunnel.kind == Web && (c.phase == Pended || c.phase == Waiting)
    case DropPending => c.phase == Withdrawing
    case DropStream => c.phase == Unstreaming || c.phase.Closing?
    case CountUdp => c.phase == Accepted && IsUdp(c)
    case Activate => c.phase == (if IsUdp(c) then Counted else Accepted)
    case CountUp(_) => c.phase == Opened && !IsUdp(c)
    case CreditUp => c.phase == Opened && !IsUdp(c) && l.act.Some?
    case CountDown(_) => c.phase == Opened && !IsUdp(c)
    case CreditDown => c.phase == Opened && !IsUdp(c) && l.act.Some?
    case EndBridge => c.phase == Opened && !IsUdp(c) && c.owedUp == 0 && c.owedDown == 0
    case DropActive => c.phase.Departing?
    case Uncount => c.phase == Uncounting
    case Purge(at) => l.pend.Some? && l.pend.value.expires <= at
    case Consume(_) => l.pend.Some?
    case Deliver(_) => true
    case List => c.phase == Opened && IsUdp(c)
    case Unlist(why) => c.phase == Listed && why != Bridged
    case Forget => c.phase == Listed
    case Hand(_) => c.phase == Listed && IsUdp(c)
    case Route(f) => IsUdp(c) && l.streamed && c.replying && |c.inbox| < Pipeline.STREAM_SLOTS
    case Reply => IsUdp(c) && c.replying && Replies(c.phase) && c.inbox != []
    case StopReplying => IsUdp(c) && c.replying && Replies(c.phase)
  }

  /** The response task of a UDP session exists once the session has been made active. */
  predicate Replies(p: Phase) {
    p == Opened || p == Listed || p == Forgotten || p.Closing? || p.Departing? || p == Uncounting || p.Closed?
  }

  /** Only datagram frames are sent to the peer and counted. */
  function AfterReply(c: Conn): Conn
    requires c.inbox != []
  {
    var f := c.inbox[0];
    if f.kind == FRAME_DATAGRAM
    then c.(inbox := c.inbox[1..], sent := c.sent + [f.payload], up := c.up + |f.payload|)
    else c.(inbox := c.inbox[1..])
  }

  /** What a move adds to the global byte counters. */
  function UpBytes(l: Local, m: Move): nat {
    match m
    case CountUp(n) => n
    case Reply => if l.conn.inbox != [] && l.conn.inbox[0].kind == FRAME_DATAGRAM then |l.conn.inbox[0].payload| else 0
    case _ => 0
  }

  function DownBytes(m: Move): nat {
    match m
    case CountDown(n) => n
    case Hand(datagram) => |datagram|
    case _ => 0
  }

  function MoveNext(l: Local, m: Move): Local
    requires MoveAllowed(l, m)
  {
    var c := l.conn;
    match m
    case AddStream => l.(streamed := true, conn := c.(phase := Streamed))
    case AddPending(expires) =>
      l.(pend := Some(Pending(c.tunnel.agent, TicketHash(c.ticket), expires)), conn := c.(phase := Pended, expires := expires))
    case SendOpen(ok) => l.(conn := if ok then c.(phase := Waiting, asked := true) else c.(phase := Abandoned))
    case HearAnswer => l.(conn := c.(phase := if c.answer.value then Accepted else Withdrawing))
    case GiveUp => l.(conn := c.(phase := Withdrawing))
    case Drop => l.(conn := c.(phase := Dropped))
    case DropPending => l.(pend := None, conn := c.(phase := Unstreaming))
    case DropStream => l.(streamed := false, conn := c.(phase := if c.phase == Unstreaming then Refused else Departing(c.phase.why)))
    case CountUdp => l.(conn := c.(phase := Counted))
    case Activate =>
      l.(act := Some(Active(c.tunnel.id, c.peer, c.tunnel.kind, 0, 0)), conn := c.(phase := Opened))
    case CountUp(n) => l.(conn := c.(up := c.up + n, owedUp := c.owedUp + n))
    case CreditUp => l.(act := Some(l.act.value.(up := l.act.value.up + c.owedUp)), conn := c.(owedUp := 0))
    case CountDown(n) => l.(conn := c.(down := c.down + n, owedDown := c.owedDown + n))
    case CreditDown => l.(act := Some(l.act.value.(down := l.act.value.down + c.owedDown)), conn := c.(owedDown := 0))
    case EndBridge => l.(conn := c.(phase := Closing(Bridged)))
    case DropActive => l.(act := None, conn := c.(phase := if c.phase.why == Evicted then Uncounting else Closed(c.phase.why)))
    case Uncount => l.(conn := c.(phase := Closed(Evicted)))
    case Purge(_) => l.(pend := None)
    case Consume(ack) => l.(pend := None, conn := c.(acks := c.acks + [ack]))
    case Deliver(accepted) => if Hears(c.phase) then l.(conn := c.(answer := Some(accepted))) else l
    case List => l.(conn := c.(phase := Listed))
    case Unlist(why) => l.(conn := c.(phase := Closing(why)))
    case Forget => l.(conn := c.(phase := Forgotten))
    case Hand(datagram) => l.(conn := c.(handed := c.handed + [datagram], down := c.down + |datagram|))
    case Route(f) => l.(conn := c.(inbox := c.inbox + [f], routed := c.routed + [f]))
    case Reply => l.(conn := AfterReply(c))
    case StopReplying => l.(conn := c.(replying := false, inbox := []))
  }

  // ---------------------------------------------------------------- the same, field by field

  function PhaseAfter(c: Conn, m: Move): Phase {
    match m
    case AddStream => Streamed
    case AddPending(_) => Pended
    case SendOpen(ok) => if ok then Waiting else Abandoned
    case HearAnswer => if c.answer == Some(true) then Accepted else Withdrawing
    case GiveUp => Withdrawing
    case Drop => Dropped
    case DropPending => Unstreaming
    case DropStream => if c.phase.Closing? then Departing(c.phase.why) else Refused
    case CountUdp => Counted
    case Activate => Opened
    case EndBridge => Closing(Bridged)
    case DropActive => if c.phase == Departing(Evicted) then Uncounting else if c.phase.Departing? then Closed(c.phase.why) else c.phase
    case Uncount => Closed(Evicted)
    case List => Listed
    case Unlist(why) => Closing(why)
    case Forget => Forgotten
    case _ => c.phase
  }

  /** The groups of moves: the opening handshake, tickets, the bridge and its end, and UDP. */
  predicate Handshaking(m: Move) {
    m.AddStream? || m.AddPending? || m.SendOpen? || m.HearAnswer? || m.GiveUp? || m.Drop? || m.DropPending?
  }

  predicate Ticketing(m: Move) {
    m.Purge? || m.Consume? || m.Deliver?
  }

  predicate BridgeMove(m: Move) {
    m.DropStream? || m.Activate? || m.CountUp? || m.CreditUp? || m.CountDown? || m.CreditDown? || m.EndBridge? || m.DropActive?
  }

  lemma EarlyPhase(l: Local, m: Move)
    requires MoveAllowed(l, m) && (Handshaking(m) || Ticketing(m))
    ensures MoveNext(l, m).conn.phase == PhaseAfter(l.conn, m)
  {
  }

  lemma LatePhase(l: Local, m: Move)
    requires MoveAllowed(l, m) && !Handshaking(m) && !Ticketing(m)
    ensures MoveNext(l, m).conn.phase == PhaseAfter(l.conn, m)
  {
  }

  lemma PhaseField(l: Local, m: Move)
    requires MoveAllowed(l, m)
    ensures MoveNext(l, m).conn.phase == PhaseAfter(l.conn, m)
  {
    hide MoveAllowed;
    hide PhaseAfter;
    if Handshaking(m) || Ticketing(m) {
      EarlyPhase(l, m);
    } else {
      LatePhase(l, m);
    }
    hide MoveNext;
  }

  predicate SameIdentity(l: Local, m: Move)
    requires MoveAllowed(l, m)
  {
    var c, d := l.conn, MoveNext(l, m).conn;
    && d.tunnel == c.tunnel && d.peer == c.peer && d.listener == c.listener && d.ticket == c.ticket
    && (m.AddPending? || d.expires == c.expires)
  }

  predicate SameTickets(l: Local, m: Move)
    requires MoveAllowed(l, m)
  {
    var c, d := l.conn, MoveNext(l, m).conn;
    && d.acks == c.acks + (if m.Consume? then [m.ack] else [])
    && d.asked == (c.asked || m == SendOpen(true))
    && d.answer == if m.Deliver? && Hears(c.phase) then Some(m.accepted) else c.answer
  }

  predicate SameBytes(l: Local, m: Move)
    requires MoveAllowed(l, m)
  {
    var c, d := l.conn, MoveNext(l, m).conn;
    d.up == c.up + UpBytes(l, m) && d.down == c.down + DownBytes(m)
  }

  lemma HandshakingFields(l: Local, m: Move)
    requires MoveAllowed(l, m) && Handshaking(m)
    ensures SameIdentity(l, m) && SameTickets(l, m) && SameBytes(l, m)
  {
  }

  lemma TicketingFields(l: Local, m: Move)
    requires MoveAllowed(l, m) && Ticketing(m)
    ensures SameIdentity(l, m) && SameTickets(l, m) && SameBytes(l, m)
  {
  }

  lemma CountingFields(l: Local, m: Move)
    requires MoveAllowed(l, m) && (m.CountUp? || m.CreditUp? || m.CountDown? || m.CreditDown?)
    ensures SameIdentity(l, m) && SameTickets(l, m) && SameBytes(l, m)
  {
  }

  lemma EndingFields(l: Local, m: Move)
    requires MoveAllowed(l, m) && (m.DropStream? || m.Activate? || m.EndBridge? || m.DropActive?)
    ensures SameIdentity(l, m) && SameTickets(l, m) && SameBytes(l, m)
  {
  }

  lemma BridgeFields(l: Local, m: Move)
    requires MoveAllowed(l, m) && BridgeMove(m)
    ensures SameIdentity(l, m) && SameTickets(l, m) && SameBytes(l, m)
  {
    hide SameIdentity;
    hide SameTickets;
    hide SameBytes;
    if m.CountUp? || m.CreditUp? || m.CountDown? || m.CreditDown? {
      CountingFields(l, m);
    } else {
      EndingFields(l, m);
    }
    hide MoveAllowed;
  }

  lemma UdpFields(l: Local, m: Move)
    requires MoveAllowed(l, m) && !Handshaking(m) && !Ticketing(m) && !BridgeMove(m)
    ensures SameIdentity(l, m) && SameTickets(l, m) && SameBytes(l, m)
  {
  }

  lemma SameFields(l: Local, m: Move)
    requires MoveAllowed(l, m)
    ensures SameIdentity(l, m) && SameTickets(l, m) && SameBytes(l, m)
  {
    hide SameIdentity;
    hide SameTickets;
    hide SameBytes;
    hide MoveAllowed;
    if Handshaking(m) {
      HandshakingFields(l, m);
    } else if Ticketing(m) {
      TicketingFields(l, m);
    } else if BridgeMove(m) {
      BridgeFields(l, m);
    } else {
      UdpFields(l, m);
    }
  }

  lemma FixedFields(l: Local, m: Move)
    requires MoveAllowed(l, m)
    ensures var c, d := l.conn, MoveNext(l, m).conn;
      && d.tunnel == c.tunnel && d.peer == c.peer && d.listener == c.listener && d.ticket == c.ticket
      && (m.AddPending? || d.expires == c.expires)
  {
    SameFields(l, m);
    hide MoveNext;
    hide MoveAllowed;
  }

  lemma TicketFields(l: Local, m: Move)
    requires MoveAllowed(l, m)
    ensures var c, d := l.conn, MoveNext(l, m).conn;
      && d.acks == c.acks + (if m.Consume? then [m.ack] else [])
      && d.asked == (c.asked || m == SendOpen(true))
      && d.answer == if m.Deliver? && Hears(c.phase) then Some(m.accepted) else c.answer
  {
    SameFields(l, m);
    hide MoveNext;
    hide MoveAllowed;
  }

  lemma ByteFields(l: Local, m: Move)
    requires MoveAllowed(l, m)
    ensures var c, d := l.conn, MoveNext(l, m).conn;
      d.up == c.up + UpBytes(l, m) && d.down == c.down + DownBytes(m)
  {
    SameFields(l, m);
    hide MoveNext;
    hide MoveAllowed;
  }

  lemma ReplyFields(l: Local, m: Move)
    requires MoveAllowed(l, m)
    ensures var c, d := l.conn, MoveNext(l, m).conn;
      && (m.Reply? || d.sent == c.sent)
      && (m.Reply? || m.Route? || m.StopReplying? || d.inbox == c.inbox)
      && (m.StopReplying? || d.replying == c.replying)
      && d.routed == c.routed + (if m.Route? then [m.frame] else [])
      && d.handed == c.handed + (if m.Hand? then [m.datagram] else [])
  {
  }

  lemma MapFields(l: Local, m: Move)
    requires MoveAllowed(l, m)
    ensures var l' := MoveNext(l, m);
      && (m.AddPending? || l'.pend == l.pend || l'.pend == None)
      && l'.streamed == (m.AddStream? || (l.streamed && !m.DropStream?))
      && (m.Activate? || m.CreditUp? || m.CreditDown? || m.DropActive? || l'.act == l.act)
  {
  }

  // ---------------------------------------------------------------- the whole server

  function Get<V>(m: map<Uuid, V>, id: Uuid): Option<V> {
    if id in m then Some(m[id]) else None
  }

  function Set<V>(m: map<Uuid, V>, id: Uuid, v: Option<V>): map<Uuid, V> {
    if v.Some? then m[id := v.value] else m - {id}
  }

  function LocalOf(s: Server, id: Uuid): Local
    requires id in s.conns
  {
    Local(s.conns[id], Get(s.pending, id), id in s.streams, Get(s.active, id))
  }

  function PutLocal(s: Server, id: Uuid, l: Local): Server {
    s.(conns := s.conns[id := l.conn],
       pending := Set(s.pending, id, l.pend),
       streams := if l.streamed then s.streams + {id} else s.streams - {id},
       active := Set(s.active, id, l.act))
  }

  function NewConn(tunnel: Tunnel, peer: Peer, listener: nat, ticket: nat): Conn {
    Conn(tunnel, peer, listener, ticket, 0, Admitted, None, false, [], 0, 0, 0, 0, [], [], [], [], true)
  }

  function GaugeOf(c: Conn): nat {
    if IsUdp(c) && (c.phase == Counted || c.phase == Opened || c.phase == Listed || c.phase == Forgotten || c.phase.Closing?
                    || c.phase.Departing? || c.phase == Uncounting || c.phase == Closed(Stopped))
    then 1 else 0
  }

  function RowsOf(l: Local, id: Uuid, m: Move): seq<Row> {
    if m == DropActive && l.conn.tunnel.kind == Tcp && l.act.Some?
    then [Row(id, l.act.value.tunnel, l.act.value.up, l.act.value.down)] else []
  }

  /** A move on one connection, with its effect on the counters and the connection history. */
  function Moved(s: Server, id: Uuid, m: Move): Server
    requires id in s.conns && MoveAllowed(LocalOf(s, id), m)
  {
    var l := LocalOf(s, id);
    var l' := MoveNext(l, m);
    PutLocal(s, id, l').(
      bytesUp := s.bytesUp + UpBytes(l, m),
      bytesDown := s.bytesDown + DownBytes(m),
      activeUdp := if m == CountUdp then s.activeUdp + 1 else if m == Uncount then s.activeUdp - 1 else s.activeUdp,
      history := s.history + RowsOf(l, id, m))
  }

  // ---------------------------------------------------------------- steps

  datatype Step =
    | Tick(d: nat)
    | Admit(id: Uuid, tunnel: Tunnel, peer: Peer, ticket: nat)
    | Task(id: Uuid, m: Move)
    | Cleanup(id: Uuid)
    | Check(call: nat, id: Uuid, agent: Uuid, ticket: nat, accepted: bool)
    | Remove(call: nat)
    | Answer(call: nat)
    | Listen(lid: nat, tunnel: Tunnel)
    | AdmitUdp(lid: nat, id: Uuid, peer: Peer, ticket: nat, bytes: seq<byte>)  // a datagram of a new peer
    | Enlist(lid: nat)
    | Release(lid: nat)
    | Hear(lid: nat, peer: Peer, bytes: seq<byte>)  // a datagram of a known one
    | PassOn(lid: nat, id: Uuid, bytes: seq<byte>)  // the datagram goes to the agent
    | Skip(lid: nat)                                // the agent is gone
    | Evict(lid: nat, peer: Peer)
    | Lose(lid: nat, peer: Peer)
    | Halt(lid: nat)
    | HaltSession(lid: nat, peer: Peer)

  /** Moves a task makes by itself. */
  predicate OwnMove(m: Move) {
    !m.Purge? && !m.Consume? && !m.Deliver? && !m.List? && !m.Unlist? && !m.Forget? && !m.Hand?
  }

  /** `source_allowed`: the peer's address is in the tunnel's allowlist. */
  predicate SourceAllowed(tunnel: Tunnel, peer: Peer) {
    peer.ip in tunnel.sources
  }

  /** The listener is at the top of its loop; it has a datagram to pass on. */
  predicate Idle(s: Server, lid: nat) {
    lid in s.listeners && s.listeners[lid].running && s.listeners[lid].busy == None && s.listeners[lid].inbound == None
  }

  predicate Handling(s: Server, lid: nat) {
    lid in s.listeners && s.listeners[lid].running && s.listeners[lid].busy == None && s.listeners[lid].inbound.Some?
  }

  predicate Known(s: Server, lid: nat, peer: Peer) {
    lid in s.listeners && peer in s.listeners[lid].sessions && s.listeners[lid].sessions[peer].id in s.conns
  }

  /** The check of an acknowledgement: agent, expiry, ticket. */
  predicate TicketMatches(p: Pending, agent: Uuid, ticket: nat, now: nat) {
    p.agent == agent && p.expires > now && p.hash == TicketHash(ticket)
  }

  predicate Done(p: Phase) {
    p == Abandoned || p == Refused || p == Closed(Evicted)
  }

  predicate CanMove(s: Server, id: Uuid, m: Move) {
    id in s.conns && MoveAllowed(LocalOf(s, id), m)
  }

  predicate Possible(s: Server, step: Step) {
    match step
    case Tick(_) => true
    case Admit(id, tunnel, peer, _) => id !in s.conns && tunnel.kind != Udp && SourceAllowed(tunnel, peer)
    case Task(id, m) =>
      && OwnMove(m) && CanMove(s, id, m)
      && (m.AddPending? ==> m.expires == s.now + s.ttl)
      && (m.Route? ==> m.frame.id == id)
    case Cleanup(id) => CanMove(s, id, Purge(s.now))
    case Check(call, id, agent, ticket, _) => call !in s.calls && id in s.pending && TicketMatches(s.pending[id], agent, ticket, s.now)
    case Remove(call) => call in s.calls && s.calls[call].stage == Checked && s.calls[call].id in s.conns
    case Answer(call) => call in s.calls && s.calls[call].stage == Removed && s.calls[call].id in s.conns
    case Listen(lid, tunnel) => lid !in s.listeners && tunnel.kind == Udp
    case AdmitUdp(lid, id, peer, _, _) =>
      && Idle(s, lid) && peer !in s.listeners[lid].sessions && id !in s.conns
      && SourceAllowed(s.listeners[lid].tunnel, peer)
    case Enlist(lid) =>
      lid in s.listeners && s.listeners[lid].busy.Some? && CanMove(s, s.listeners[lid].busy.value, List)
    case Release(lid) =>
      && lid in s.listeners && s.listeners[lid].busy.Some? && s.listeners[lid].busy.value in s.conns
      && Done(s.conns[s.listeners[lid].busy.value].phase)
    case Hear(lid, peer, _) => Idle(s, lid) && Known(s, lid, peer)
    case PassOn(lid, id, bytes) =>
      && Handling(s, lid) && s.listeners[lid].inbound.value.bytes == bytes
      && Known(s, lid, s.listeners[lid].inbound.value.peer) && s.listeners[lid].sessions[s.listeners[lid].inbound.value.peer].id == id
      && CanMove(s, id, Hand(bytes))
    case Skip(lid) => Handling(s, lid)
    case Evict(lid, peer) =>
      && Idle(s, lid) && Known(s, lid, peer) && s.now >= s.listeners[lid].sessions[peer].lastSeen
      && s.now - s.listeners[lid].sessions[peer].lastSeen >= s.udpTimeout
      && CanMove(s, s.listeners[lid].sessions[peer].id, Unlist(Evicted))
    case Lose(lid, peer) =>
      && Handling(s, lid) && s.listeners[lid].inbound.value.peer == peer && Known(s, lid, peer)
      && CanMove(s, s.listeners[lid].sessions[peer].id, Forget)
    case Halt(lid) => Idle(s, lid)
    case HaltSession(lid, peer) =>
      && Known(s, lid, peer) && !s.listeners[lid].running && CanMove(s, s.listeners[lid].sessions[peer].id, Unlist(Stopped))
  }

  function WithListener(s: Server, lid: nat, x: Listener): Server {
    s.(listeners := s.listeners[lid := x])
  }

  function Born(s: Server, id: Uuid, c: Conn): Server {
    s.(conns := s.conns[id := c])
  }

  function Next(s: Server, step: Step): Server
    requires Possible(s, step)
  {
    match step
    case Tick(d) => s.(now := s.now + d)
    case Admit(id, tunnel, peer, ticket) => Born(s, id, NewConn(tunnel, peer, 0, ticket))
    case Task(id, m) => Moved(s, id, m)
    case Cleanup(id) => Moved(s, id, Purge(s.now))
    case Check(call, id, agent, ticket, accepted) =>
      s.(calls := s.calls[call := Call(id, Ack(agent, ticket, accepted, s.now), Checked)])
    case Remove(call) =>
      var c := s.calls[call];
      if c.id in s.pending
      then Moved(s, c.id, Consume(c.ack)).(calls := s.calls[call := c.(stage := Removed)])
      else s.(calls := s.calls - {call})
    case Answer(call) => Moved(s, s.calls[call].id, Deliver(s.calls[call].ack.accepted)).(calls := s.calls - {call})
    case Listen(lid, tunnel) => WithListener(s, lid, Listener(tunnel, true, None, map[], None))
    case AdmitUdp(lid, id, peer, ticket, bytes) =>
      var x := s.listeners[lid];
      WithListener(Born(s, id, NewConn(x.tunnel, peer, lid, ticket)), lid, x.(busy := Some(id), inbound := Some(Datagram(peer, bytes))))
    case Enlist(lid) =>
      var x := s.listeners[lid];
      var id := x.busy.value;
      WithListener(Moved(s, id, List), lid, x.(busy := None, sessions := x.sessions[s.conns[id].peer := Session(id, s.now)]))
    case Release(lid) => WithListener(s, lid, s.listeners[lid].(busy := None, inbound := None))
    case Hear(lid, peer, bytes) =>
      var x := s.listeners[lid];
      WithListener(s, lid, x.(sessions := x.sessions[peer := x.sessions[peer].(lastSeen := s.now)], inbound := Some(Datagram(peer, bytes))))
    case PassOn(lid, id, bytes) => WithListener(Moved(s, id, Hand(bytes)), lid, s.listeners[lid].(inbound := None))
    case Skip(lid) => WithListener(s, lid, s.listeners[lid].(inbound := None))
    case Evict(lid, peer) =>
      var x := s.listeners[lid];
      var id := x.sessions[peer].id;
      WithListener(Moved(s, id, Unlist(Evicted)), lid, x.(busy := Some(id), sessions := x.sessions - {peer}))
    case Lose(lid, peer) =>
      var x := s.listeners[lid];
      WithListener(Moved(s, x.sessions[peer].id, Forget), lid, x.(sessions := x.sessions - {peer}, inbound := None))
    case Halt(lid) => WithListener(s, lid, s.listeners[lid].(running := false))
    case HaltSession(lid, peer) =>
      var x := s.listeners[lid];
      WithListener(Moved(s, x.sessions[peer].id, Unlist(Stopped)), lid, x.(sessions := x.sessions - {peer}))
  }

  // ---------------------------------------------------------------- invariant of one connection

  /** Phases in which the connection has its stream entry; its `active` entry; a pending entry. */
  predicate HasStream(p: Phase) {
    !(p == Admitted || p == Refused || p.Departing? || p == Uncounting || p.Closed?)
  }

  predicate HasActive(p: Phase) {
    p == Opened || p == Listed || p == Forgotten || p.Closing? || p.Departing?
  }

  predicate MayPend(p: Phase) {
    p == Pended || p == Waiting || p == Abandoned || p == Dropped || p == Withdrawing
  }

  /** The agent has accepted. */
  predicate IsAccepted(p: Phase) {
    p == Accepted || p == Counted || p == Uncounting || p.Closed? || HasActive(p)
  }

  /** The phases only connections of one kind can be in. */
  predicate KindOk(c: Conn) {
    match c.phase
    case Counted => IsUdp(c)
    case Listed => IsUdp(c)
    case Forgotten => IsUdp(c)
    case Uncounting => IsUdp(c)
    case Dropped => c.tunnel.kind == Web
    case Closing(why) => (why == Bridged) != IsUdp(c)
    case Departing(why) => (why == Bridged) != IsUdp(c)
    case Closed(why) => (why == Bridged) != IsUdp(c)
    case _ => true
  }

  /** At most one acknowledgement ever succeeds, and only the right one. */
  predicate AcksOk(l: Local) {
    var c := l.conn;
    && |c.acks| <= 1
    && (l.pend.Some? ==> c.acks == [] && l.pend.value == Pending(c.tunnel.agent, TicketHash(c.ticket), c.expires))
    && (forall a :: a in c.acks ==> a.agent == c.tunnel.agent && a.ticket == c.ticket && a.at < c.expires)
    && (c.answer.Some? ==> |c.acks| == 1 && c.acks[0].accepted == c.answer.value)
    && (c.phase == Admitted || c.phase == Streamed ==> c.acks == [])
    && (IsAccepted(c.phase) ==> |c.acks| == 1 && c.acks[0].accepted)
    && (c.phase != Dropped ==> c.asked == !(c.phase == Admitted || c.phase == Streamed || c.phase == Pended || c.phase == Abandoned))
  }

  predicate BytesOk(l: Local) {
    var c := l.conn;
    && (HasActive(c.phase) && !IsUdp(c) ==>
          l.act.Some? && l.act.value.up + c.owedUp == c.up && l.act.value.down + c.owedDown == c.down)
    && (!HasActive(c.phase) && !IsAccepted(c.phase) ==> c.up == 0 && c.down == 0)
    && (IsUdp(c) || c.phase != Opened ==> c.owedUp == 0 && c.owedDown == 0)
    && ((c.phase == Accepted || c.phase == Counted) ==> c.up == 0 && c.down == 0)
    && (!Replies(c.phase) ==> c.sent == [])
  }

  function Datagrams(fs: seq<CarrierFrame>): seq<seq<byte>> {
    if fs == [] then []
    else Datagrams(fs[..|fs| - 1]) + (if fs[|fs| - 1].kind == FRAME_DATAGRAM then [fs[|fs| - 1].payload] else [])
  }

  /** What has been sent to a UDP peer is the payloads of its own datagram frames, in order. */
  ghost predicate RepliesOk(c: Conn) {
    && |c.inbox| <= Pipeline.STREAM_SLOTS
    && (IsUdp(c) ==> c.up == Lengths(c.sent) && c.down == Lengths(c.handed))
    && exists done: seq<CarrierFrame> :: Took(c, done)
  }

  ghost predicate Took(c: Conn, done: seq<CarrierFrame>) {
    && c.sent == Datagrams(done) && done <= c.routed
    && (c.replying ==> c.routed == done + c.inbox)
  }

  predicate MapsOk(l: Local) {
    var c := l.conn;
    && l.streamed == HasStream(c.phase)
    && l.act.Some? == HasActive(c.phase)
    && (l.pend.Some? ==> MayPend(c.phase))
    && (l.act.Some? ==> l.act.value.tunnel == c.tunnel.id && l.act.value.peer == c.peer && l.act.value.kind == c.tunnel.kind)
  }

  ghost predicate LocalOk(l: Local) {
    && SourceAllowed(l.conn.tunnel, l.conn.peer)
    && KindOk(l.conn) && MapsOk(l) && AcksOk(l) && BytesOk(l)
  }

  /** What a successful acknowledgement must satisfy, as checked earlier. */
  predicate AckFits(c: Conn, ack: Ack) {
    ack.agent == c.tunnel.agent && ack.ticket == c.ticket && ack.at < c.expires
  }

  lemma OpeningKeeps(l: Local, m: Move)
    requires MoveAllowed(l, m) && LocalOk(l) && (m.AddStream? || m.AddPending? || m.SendOpen?)
    ensures LocalOk(MoveNext(l, m))
  {
  }

  lemma WaitingKeeps(l: Local, m: Move)
    requires MoveAllowed(l, m) && LocalOk(l) && (m.HearAnswer? || m.GiveUp? || m.Drop? || m.DropPending?)
    ensures LocalOk(MoveNext(l, m))
  {
  }

  lemma HandshakingKeeps(l: Local, m: Move)
    requires MoveAllowed(l, m) && LocalOk(l) && Handshaking(m)
    ensures LocalOk(MoveNext(l, m))
  {
    hide LocalOk;
    if m.AddStream? || m.AddPending? || m.SendOpen? {
      OpeningKeeps(l, m);
    } else {
      WaitingKeeps(l, m);
    }
    hide MoveAllowed;
    hide MoveNext;
  }

  lemma TicketingKeeps(l: Local, m: Move)
    requires MoveAllowed(l, m) && LocalOk(l) && Ticketing(m)
    requires m.Consume? ==> AckFits(l.conn, m.ack)
    requires m.Deliver? ==> |l.conn.acks| == 1 && l.conn.acks[0].accepted == m.accepted
    ensures LocalOk(MoveNext(l, m))
  {
  }

  /** The remaining moves touch no ticket. */
  lemma OthersKeepAcks(l: Local, m: Move)
    requires MoveAllowed(l, m) && AcksOk(l) && KindOk(l.conn) && MapsOk(l) && !Handshaking(m) && !Ticketing(m)
    ensures AcksOk(MoveNext(l, m))
  {
    PhaseField(l, m);
    FixedFields(l, m);
    TicketFields(l, m);
    MapFields(l, m);
    hide MoveNext;
    assert MoveNext(l, m).conn.acks == l.conn.acks;
    assert IsAccepted(MoveNext(l, m).conn.phase) ==> IsAccepted(l.conn.phase);
  }

  lemma OthersKeepMaps(l: Local, m: Move)
    requires MoveAllowed(l, m) && KindOk(l.conn) && MapsOk(l) && !Handshaking(m) && !Ticketing(m)
    ensures MapsOk(MoveNext(l, m))
  {
  }

  lemma OthersKeepKind(l: Local, m: Move)
    requires MoveAllowed(l, m) && KindOk(l.conn) && !Handshaking(m) && !Ticketing(m)
    ensures KindOk(MoveNext(l, m).conn)
  {
  }

  lemma OthersKeepBytes(l: Local, m: Move)
    requires MoveAllowed(l, m) && KindOk(l.conn) && MapsOk(l) && BytesOk(l) && !Handshaking(m) && !Ticketing(m)
    ensures BytesOk(MoveNext(l, m))
  {
  }

  lemma MoveKeepsLocalOk(l: Local, m: Move)
    requires MoveAllowed(l, m) && LocalOk(l)
    requires m.Consume? ==> AckFits(l.conn, m.ack)
    requires m.Deliver? ==> |l.conn.acks| == 1 && l.conn.acks[0].accepted == m.accepted
    ensures LocalOk(MoveNext(l, m))
  {
    if Handshaking(m) {
      HandshakingKeeps(l, m);
    } else if Ticketing(m) {
      TicketingKeeps(l, m);
    } else {
      hide AcksOk;
      hide BytesOk;
      hide MapsOk;
      hide KindOk;
      OthersKeepMaps(l, m);
      OthersKeepKind(l, m);
      OthersKeepAcks(l, m);
      OthersKeepBytes(l, m);
    }
  }
}
