/** The relay of one carrier session: any number of streams, the open/ack handshake of each, and the
    two directions of the data plane, as one transition system. */
module Relay {
  import opened Bytes
  import opened Protocol
  import opened Pipeline

  /** The public side of a connection: waiting for the agent's answer, answered, bridging, over. `SUnheard`
      still waits although the answer has come: it was taken and ignored, its ticket having expired.
      `SGone` is a request whose task was dropped while it waited, which leaves its entries. */
  datatype ServerPhase = SNone | SWaiting | SUnheard | SGone | SAccepted | SRefused | SBridging | SEnded

  /** The agent's side: nothing yet, dialling the local target, answer not yet sent (refusal, or
      acceptance with the stream registered), answer sent, bridging, over. `ALeaked` is a failed
      local TLS handshake after acceptance, which leaves the stream registered. */
  datatype AgentPhase =
    | ANone | ADialing | ARefusing | ARefused | ARegistered | AAccepted | ABridging | AEnded | ALeaked

  /** `pending`, `inServer` and `inAgent` say in which of the maps the connection has an entry: the
      server's pending tickets, the server's streams and the agent's streams. */
  datatype Conn = Conn(server: ServerPhase, agent: AgentPhase, pending: bool, inServer: bool, inAgent: bool)

  /** `down` carries public bytes to the agent, `up` carries local bytes to the server. `pinging`: the agent's
      reader does not read, but waits for room in the outbound channel to send its heartbeat. */
  datatype State = State(down: Dir, up: Dir, conns: map<Uuid, Conn>, pinging: bool)

  const INITIAL := State(NEW_DIR, NEW_DIR, map[], false)

  /** The handshake steps of one connection. `Accept` is the environment's; `TlsFail`, `IgnoreAnswer`,
      `Vanish` and `Timeout` are failures. */
  datatype Shake =
    | Accept          // register the stream and the ticket, then send the open message
    | TakeOpen        // the agent's reader takes the open message and starts a task
    | DialOk          // local target reached; register the stream
    | DialFail
    | SendAnswer      // the agent enqueues its answer
    | AgentStart
    | TlsFail
    | AgentDrop       // the agent's writing half is over and its receiver goes away
    | AgentEnd
    | TakeAnswer(accepted: bool)  // the server's reader takes the answer
    | IgnoreAnswer(accepted: bool)  // it takes the answer, whose ticket has expired, and drops it
    | Timeout
    | Vanish          // the client of a web request goes away and the waiting task is dropped
    | ServerStart
    | ServerRefused
    | ServerDrop      // both halves are over: the bridge is left, and its receiver goes away
    | ServerEnd       // then the entry is removed

  /** The heartbeat of the agent's reader, and its answer. `Tick` is the timer's. */
  datatype Pulse = Tick | SendPing | TakePing | TakePong

  datatype Step = Down(s: DirStep) | Up(s: DirStep) | Handshake(id: Uuid, h: Shake) | Heart(p: Pulse)

  // ---------------------------------------------------------------- one connection

  datatype Local = Local(conn: Conn, down: Half, up: Half)

  const FRESH := Local(Conn(SNone, ANone, false, false, false), NEW_HALF, NEW_HALF)

  predicate Waits(p: ServerPhase) {
    p == SWaiting || p == SUnheard
  }

  /** Steps that take an answer off the carrier. */
  predicate TakesAnswer(h: Shake) {
    h.TakeAnswer? || h.IgnoreAnswer?
  }

  predicate LocalAllows(l: Local, h: Shake) {
    match h
    case Accept => l == FRESH
    case TakeOpen => l.conn.agent == ANone
    case DialOk => l.conn.agent == ADialing
    case DialFail => l.conn.agent == ADialing
    case SendAnswer => l.conn.agent == ARegistered || l.conn.agent == ARefusing
    case AgentStart => l.conn.agent == AAccepted
    case TlsFail => l.conn.agent == AAccepted
    case AgentDrop => l.conn.agent == ABridging && l.down.receiver == Listening && SinkOver(l.down)
    case AgentEnd => l.conn.agent == ABridging && l.down.receiver == Dropped && SourceOver(l.up)
    case TakeAnswer(_) => true
    case IgnoreAnswer(_) => l.conn.pending
    case Timeout => Waits(l.conn.server)
    case Vanish => Waits(l.conn.server)
    case ServerStart => l.conn.server == SAccepted
    case ServerRefused => l.conn.server == SRefused
    case ServerDrop => l.conn.server == SBridging && l.up.receiver == Listening && SourceOver(l.down) && SinkOver(l.up)
    case ServerEnd => l.conn.server == SBridging && l.up.receiver == Dropped
  }

  function Dropping(h: Half): Half {
    h.(receiver := Dropped, queue := [])
  }

  /** The server gives up a connection that never bridged: ticket and entry go, then the receiver. */
  function Forget(l: Local): Local {
    l.(conn := l.conn.(server := SEnded, pending := false, inServer := false), up := Dropping(l.up))
  }

  function LocalNext(l: Local, h: Shake): Local
    requires LocalAllows(l, h)
  {
    match h
    case Accept => l.(conn := Conn(SWaiting, ANone, true, true, false), up := l.up.(receiver := Listening))
    case TakeOpen => l.(conn := l.conn.(agent := ADialing))
    case DialOk => l.(conn := l.conn.(agent := ARegistered, inAgent := true), down := l.down.(receiver := Listening))
    case DialFail => l.(conn := l.conn.(agent := ARefusing))
    case SendAnswer => l.(conn := l.conn.(agent := if l.conn.agent == ARegistered then AAccepted else ARefused))
    case AgentStart =>
      l.(conn := l.conn.(agent := ABridging), down := l.down.(sink := Waiting), up := l.up.(source := Reading))
    case TlsFail => l.(conn := l.conn.(agent := ALeaked), down := Dropping(l.down))
    case AgentDrop => l.(down := Dropping(l.down))
    case AgentEnd => l.(conn := l.conn.(agent := AEnded, inAgent := false))
    case TakeAnswer(accepted) =>
      if l.conn.pending
      then l.(conn := l.conn.(pending := false,
                              server := if !Waits(l.conn.server) then l.conn.server else if accepted then SAccepted else SRefused))
      else l
    case IgnoreAnswer(_) => if l.conn.server == SWaiting then l.(conn := l.conn.(server := SUnheard)) else l
    case Timeout => Forget(l)
    case Vanish => l.(conn := l.conn.(server := SGone), up := Dropping(l.up))
    case ServerStart =>
      l.(conn := l.conn.(server := SBridging), down := l.down.(source := Reading), up := l.up.(sink := Waiting))
    case ServerRefused => Forget(l)
    case ServerDrop => l.(up := Dropping(l.up))
    case ServerEnd => l.(conn := l.conn.(server := SEnded, inServer := false))
  }

  // ---------------------------------------------------------------- all connections

  predicate HasConn(s: State, id: Uuid) {
    id in s.conns && id in s.down.halves && id in s.up.halves
  }

  function LocalOf(s: State, id: Uuid): Local {
    if HasConn(s, id) then Local(s.conns[id], s.down.halves[id], s.up.halves[id]) else FRESH
  }

  function PutLocal(s: State, id: Uuid, l: Local): State {
    s.(conns := s.conns[id := l.conn], down := Put(s.down, id, l.down), up := Put(s.up, id, l.up))
  }

  predicate AnswerIsNext(s: State, id: Uuid, accepted: bool) {
    s.up.hand == None && s.up.flight != [] && s.up.flight[0] == Ack(id, accepted)
  }

  /** A router that is sending a frame to the channel of `id` has `id`'s entry locked in the map of streams,
      and the entry cannot be removed before the send is over. */
  predicate Locked(s: State, id: Uuid, atServer: bool) {
    && id in s.conns
    && if atServer then s.conns[id].inServer && s.up.hand.Some? && s.up.hand.value.id == id
       else s.conns[id].inAgent && s.down.hand.Some? && s.down.hand.value.id == id
  }

  /** The part of a handshake step that touches the carrier or a router's lock. */
  predicate TransferAllows(s: State, id: Uuid, h: Shake) {
    match h
    case TakeOpen => s.down.hand == None && !s.pinging && s.down.flight != [] && s.down.flight[0] == Open(id)
    case Timeout => !Locked(s, id, true)
    case ServerRefused => !Locked(s, id, true)
    case ServerEnd => !Locked(s, id, true)
    case AgentEnd => !Locked(s, id, false)
    case SendAnswer => |s.up.chan| < CHANNEL_SLOTS
    case TakeAnswer(accepted) => AnswerIsNext(s, id, accepted)
    case IgnoreAnswer(accepted) => AnswerIsNext(s, id, accepted)
    case _ => true
  }

  function Answer(l: Local, id: Uuid): Msg {
    Ack(id, l.conn.agent == ARegistered)
  }

  function DownTransfer(d: Dir, id: Uuid, h: Shake): Dir {
    match h
    case Accept => d.(ctl := d.ctl + [Open(id)])
    case TakeOpen => if d.flight == [] then d else d.(flight := d.flight[1..])
    case _ => d
  }

  function UpTransfer(d: Dir, l: Local, id: Uuid, h: Shake): Dir {
    match h
    case SendAnswer => d.(chan := d.chan + [Answer(l, id)])
    case TakeAnswer(_) => if d.flight == [] then d else d.(flight := d.flight[1..])
    case IgnoreAnswer(_) => if d.flight == [] then d else d.(flight := d.flight[1..])
    case _ => d
  }

  predicate PulseAllows(s: State, p: Pulse) {
    match p
    case Tick => !s.pinging && s.down.hand == None
    case SendPing => s.pinging && |s.up.chan| < CHANNEL_SLOTS
    case TakePing => s.up.hand == None && s.up.flight != [] && s.up.flight[0] == Ping
    case TakePong => !s.pinging && s.down.hand == None && s.down.flight != [] && s.down.flight[0] == Pong
  }

  function Beaten(s: State, p: Pulse): State
    requires PulseAllows(s, p)
  {
    match p
    case Tick => s.(pinging := true)
    case SendPing => s.(pinging := false, up := s.up.(chan := s.up.chan + [Ping]))
    case TakePing => s.(up := s.up.(flight := s.up.flight[1..]), down := s.down.(ctl := s.down.ctl + [Pong]))
    case TakePong => s.(down := s.down.(flight := s.down.flight[1..]))
  }

  predicate Possible(s: State, step: Step) {
    match step
    case Down(st) => Enabled(s.down, st) && (st == Fetch ==> !s.pinging)
    case Up(st) => Enabled(s.up, st)
    case Handshake(id, h) =>
      && (if h == Accept then id !in s.conns && id !in s.down.halves && id !in s.up.halves else HasConn(s, id))
      && TransferAllows(s, id, h) && LocalAllows(LocalOf(s, id), h)
    case Heart(p) => PulseAllows(s, p)
  }

  function Next(s: State, step: Step): State
    requires Possible(s, step)
  {
    match step
    case Down(st) => s.(down := Apply(s.down, st))
    case Up(st) => s.(up := Apply(s.up, st))
    case Handshake(id, h) =>
      var l := LocalOf(s, id);
      PutLocal(s.(down := DownTransfer(s.down, id, h), up := UpTransfer(s.up, l, id, h)), id, LocalNext(l, h))
    case Heart(p) => Beaten(s, p)
  }

  // ---------------------------------------------------------------- invariant

  predicate Accepted(p: AgentPhase) {
    p == AAccepted || p == ABridging || p == AEnded || p == ALeaked
  }

  predicate ServerOk(l: Local, acks: nat, naks: nat) {
    var c, dn, up := l.conn, l.down, l.up;
    && (c.server != SGone ==> c.pending == Waits(c.server))
    && c.inServer == (c.server != SEnded)
    && match c.server
       case SNone => false
       case SWaiting =>
         && up.receiver == Listening && up.sink == Unstarted && dn.source == Idle
         && (Accepted(c.agent) ==> acks == 1)
         && (c.agent == ARefused ==> naks == 1)
       case SUnheard =>
         && up.receiver == Listening && up.sink == Unstarted && dn.source == Idle && acks == naks == 0
         && (Accepted(c.agent) || c.agent == ARefused)
       case SGone => up.receiver == Dropped && up.sink == Unstarted && dn.source == Idle
       case SAccepted => up.receiver == Listening && up.sink == Unstarted && dn.source == Idle && Accepted(c.agent)
       case SRefused => up.receiver == Listening && up.sink == Unstarted && dn.source == Idle && c.agent == ARefused
       case SBridging =>
         && up.receiver != Absent && up.sink != Unstarted && dn.source != Idle && Accepted(c.agent)
         && (up.receiver == Dropped ==> SourceOver(dn) && SinkOver(up))
       case SEnded =>
         && up.receiver == Dropped
         && if dn.source == Idle then up.sink == Unstarted else SourceOver(dn) && SinkOver(up) && Accepted(c.agent)
  }

  predicate AgentOk(l: Local, opens: nat, acks: nat, naks: nat) {
    var p, dn, up := l.conn.agent, l.down, l.up;
    && opens == (if p == ANone then 1 else 0)
    && acks <= (if Accepted(p) then 1 else 0)
    && naks <= (if p == ARefused then 1 else 0)
    && l.conn.inAgent == (p == ARegistered || p == AAccepted || p == ABridging || p == ALeaked)
    && match p
       case ARegistered => dn.receiver == Listening && dn.sink == Unstarted && up.source == Idle
       case AAccepted => dn.receiver == Listening && dn.sink == Unstarted && up.source == Idle
       case ABridging =>
         && dn.receiver != Absent && dn.sink != Unstarted && up.source != Idle
         && (dn.receiver == Dropped ==> SinkOver(dn))
       case AEnded => dn.receiver == Dropped && SinkOver(dn) && SourceOver(up)
       case ALeaked => dn.receiver == Dropped && dn.sink == Unstarted && up.source == Idle
       case _ => dn.receiver == Absent && dn.sink == Unstarted && up.source == Idle
  }

  /** `opens`, `acks` and `naks` count this connection's open messages and answers still travelling. */
  predicate LocalOk(l: Local, opens: nat, acks: nat, naks: nat) {
    ServerOk(l, acks, naks) && AgentOk(l, opens, acks, naks)
  }

  ghost predicate ConnOk(s: State, id: Uuid) {
    && HasConn(s, id)
    && LocalOk(LocalOf(s, id), InTransit(s.down, Open(id)), InTransit(s.up, Ack(id, true)), InTransit(s.up, Ack(id, false)))
  }

  predicate KeysOk(s: State) {
    s.down.halves.Keys == s.conns.Keys && s.up.halves.Keys == s.conns.Keys
  }

  ghost predicate ConnsOk(s: State) {
    && KeysOk(s)
    && forall id :: id in s.conns ==> ConnOk(s, id)
  }

  /** Open messages travel only down and answers only up, and only for known connections. */
  predicate DownMsg(m: Msg, ids: set<Uuid>) {
    !m.Ack? && !m.Ping? && (m.Open? ==> m.id in ids)
  }

  predicate UpMsg(m: Msg, ids: set<Uuid>) {
    !m.Open? && !m.Pong? && (m.Ack? ==> m.id in ids)
  }

  ghost predicate DownTraffic(d: Dir, ids: set<Uuid>) {
    && (forall m :: m in d.ctl ==> DownMsg(m, ids))
    && (forall m :: m in d.flight ==> DownMsg(m, ids))
    && (forall m :: m in d.chan ==> DownMsg(m, ids))
  }

  ghost predicate UpTraffic(d: Dir, ids: set<Uuid>) {
    && d.ctl == []
    && (forall m :: m in d.flight ==> UpMsg(m, ids))
    && (forall m :: m in d.chan ==> UpMsg(m, ids))
  }

  ghost predicate TrafficOk(s: State) {
    DownTraffic(s.down, s.conns.Keys) && UpTraffic(s.up, s.conns.Keys)
  }

  ghost predicate RelayOk(s: State) {
    DirOk(s.down) && DirOk(s.up) && TrafficOk(s) && ConnsOk(s) && (s.pinging ==> s.down.hand == None)
  }

  // ---------------------------------------------------------------- preservation: handshake

  function Opens(n: nat, h: Shake): nat {
    if h == Accept then n + 1 else if h == TakeOpen && n > 0 then n - 1 else n
  }

  function Answers(n: nat, l: Local, h: Shake, ok: bool): nat {
    if h == SendAnswer && (l.conn.agent == ARegistered) == ok then n + 1
    else if TakesAnswer(h) && h.accepted == ok && n > 0 then n - 1
    else n
  }

  /** One connection's own view of the handshake stays consistent. */
  lemma LocalStepOk(l: Local, h: Shake, opens: nat, acks: nat, naks: nat)
    requires LocalAllows(l, h)
    requires if h == Accept then opens == acks == naks == 0 else LocalOk(l, opens, acks, naks)
    requires TakesAnswer(h) ==> if h.accepted then acks > 0 else naks > 0
    ensures LocalOk(LocalNext(l, h), Opens(opens, h), Answers(acks, l, h, true), Answers(naks, l, h, false))
  {
    ServerSideOk(l, h, opens, acks, naks);
    AgentSideOk(l, h, opens, acks, naks);
    hide LocalNext;
    hide LocalAllows;
    hide ServerOk;
    hide AgentOk;
  }

  lemma ServerSideOk(l: Local, h: Shake, opens: nat, acks: nat, naks: nat)
    requires LocalAllows(l, h)
    requires if h == Accept then opens == acks == naks == 0 else LocalOk(l, opens, acks, naks)
    requires TakesAnswer(h) ==> if h.accepted then acks > 0 else naks > 0
    ensures ServerOk(LocalNext(l, h), Answers(acks, l, h, true), Answers(naks, l, h, false))
  {
  }

  lemma AgentSideOk(l: Local, h: Shake, opens: nat, acks: nat, naks: nat)
    requires LocalAllows(l, h)
    requires if h == Accept then opens == acks == naks == 0 else AgentOk(l, opens, acks, naks)
    ensures AgentOk(LocalNext(l, h), Opens(opens, h), Answers(acks, l, h, true), Answers(naks, l, h, false))
  {
  }

  lemma DownCounts(d: Dir, id: Uuid, h: Shake, j: Uuid)
    requires h == TakeOpen ==> d.flight != [] && d.flight[0] == Open(id)
    ensures InTransit(DownTransfer(d, id, h), Open(j)) == (if j == id then Opens(InTransit(d, Open(j)), h) else InTransit(d, Open(j)))
    ensures h == TakeOpen ==> InTransit(d, Open(id)) > 0
  {
    CountSnoc(d.ctl, Open(id), Open(j));
  }

  lemma UpCounts(d: Dir, l: Local, id: Uuid, h: Shake, j: Uuid, ok: bool)
    requires TakesAnswer(h) ==> d.flight != [] && d.flight[0] == Ack(id, h.accepted)
    ensures InTransit(UpTransfer(d, l, id, h), Ack(j, ok))
         == (if j == id then Answers(InTransit(d, Ack(j, ok)), l, h, ok) else InTransit(d, Ack(j, ok)))
    ensures TakesAnswer(h) && h.accepted == ok ==> InTransit(d, Ack(id, ok)) > 0
  {
    CountSnoc(d.chan, Answer(l, id), Ack(j, ok));
  }

  lemma PutIsLocal(s: State, id: Uuid, l: Local, j: Uuid)
    ensures LocalOf(PutLocal(s, id, l), id) == l && HasConn(PutLocal(s, id, l), id)
    ensures j != id ==> LocalOf(PutLocal(s, id, l), j) == LocalOf(s, j) && (HasConn(s, j) ==> HasConn(PutLocal(s, id, l), j))
    ensures InTransit(PutLocal(s, id, l).down, Open(j)) == InTransit(s.down, Open(j))
    ensures forall b :: InTransit(PutLocal(s, id, l).up, Ack(j, b)) == InTransit(s.up, Ack(j, b))
  {
  }

  lemma TransferKeepsLocals(s: State, id: Uuid, h: Shake, j: Uuid)
    ensures var t := s.(down := DownTransfer(s.down, id, h), up := UpTransfer(s.up, LocalOf(s, id), id, h));
            LocalOf(t, j) == LocalOf(s, j) && (HasConn(s, j) ==> HasConn(t, j))
  {
  }

  /** What a handshake step leaves of any connection, and how it changes what is in transit. */
  lemma HandshakeResult(s: State, id: Uuid, h: Shake, j: Uuid)
    requires Possible(s, Handshake(id, h))
    ensures var s' := Next(s, Handshake(id, h));
      && LocalOf(s', j) == (if j == id then LocalNext(LocalOf(s, id), h) else LocalOf(s, j))
      && (j == id || HasConn(s, j) ==> HasConn(s', j))
      && InTransit(s'.down, Open(j)) == InTransit(DownTransfer(s.down, id, h), Open(j))
      && forall b :: InTransit(s'.up, Ack(j, b)) == InTransit(UpTransfer(s.up, LocalOf(s, id), id, h), Ack(j, b))
  {
    hide LocalNext;
    hide LocalAllows;
    hide DownTransfer;
    hide UpTransfer;
    hide TransferAllows;
    var l := LocalOf(s, id);
    var t := s.(down := DownTransfer(s.down, id, h), up := UpTransfer(s.up, l, id, h));
    TransferKeepsLocals(s, id, h, j);
    PutIsLocal(t, id, LocalNext(l, h), j);
  }

  lemma HandshakeConn(s: State, id: Uuid, h: Shake, j: Uuid)
    requires TrafficOk(s) && ConnsOk(s) && Possible(s, Handshake(id, h))
    requires j in s.conns || j == id
    ensures ConnOk(Next(s, Handshake(id, h)), j)
  {
    hide LocalOk;
    hide LocalNext;
    hide Opens;
    hide Answers;
    hide TrafficOk;
    hide DownTransfer;
    hide UpTransfer;
    hide InTransit;
    HandshakeResult(s, id, h, j);
    hide Next;
    var l := LocalOf(s, id);
    DownCounts(s.down, id, h, j);
    UpCounts(s.up, l, id, h, j, true);
    UpCounts(s.up, l, id, h, j, false);
    if j == id {
      if h == Accept {
        NothingInTransit(s, id);
      } else {
        assert ConnOk(s, id);
      }
      hide ConnsOk;
      LocalStepOk(l, h, InTransit(s.down, Open(id)), InTransit(s.up, Ack(id, true)), InTransit(s.up, Ack(id, false)));
    } else {
      assert ConnOk(s, j);
    }
  }

  lemma NothingInTransit(s: State, id: Uuid)
    requires TrafficOk(s) && id !in s.conns
    ensures InTransit(s.down, Open(id)) == 0
    ensures InTransit(s.up, Ack(id, true)) == 0 && InTransit(s.up, Ack(id, false)) == 0
  {
    NoneInTransit(s.down, Open(id));
    NoneInTransit(s.up, Ack(id, true));
    NoneInTransit(s.up, Ack(id, false));
    assert !DownMsg(Open(id), s.conns.Keys);
    assert !UpMsg(Ack(id, true), s.conns.Keys);
    assert !UpMsg(Ack(id, false), s.conns.Keys);
  }

  lemma NoneInTransit(d: Dir, m: Msg)
    ensures InTransit(d, m) == 0 <==> m !in d.ctl && m !in d.flight && m !in d.chan
  {
    CountedIsMember(d.ctl, m);
    CountedIsMember(d.flight, m);
    CountedIsMember(d.chan, m);
  }

  lemma HandshakeKeepsTraffic(s: State, id: Uuid, h: Shake)
    requires TrafficOk(s) && Possible(s, Handshake(id, h))
    ensures TrafficOk(Next(s, Handshake(id, h)))
  {
    var s' := Next(s, Handshake(id, h));
    assert s.conns.Keys <= s'.conns.Keys && id in s'.conns.Keys;
    forall m | m in s'.down.ctl + s'.down.flight + s'.down.chan ensures DownMsg(m, s'.conns.Keys) {
      assert DownMsg(m, s.conns.Keys) || m == Open(id);
    }
    forall m | m in s'.up.flight + s'.up.chan ensures UpMsg(m, s'.conns.Keys) {
      assert UpMsg(m, s.conns.Keys) || m == Answer(LocalOf(s, id), id);
    }
  }

  /** How a handshake step may change a half that is already there. */
  predicate PhaseMove(g: Half, g': Half) {
    || g' == g
    || (g' == g.(source := Reading) && g.source == Idle && g.receiver != Absent)
    || (g' == g.(sink := Waiting) && g.sink == Unstarted && g.receiver == Listening)
    || (g' == g.(receiver := Listening) && g.receiver == Absent)
    || (g' == Dropping(g) && g.receiver == Listening && g.sink != Waiting && !g.sink.Writing?)
  }

  lemma PutKeepsDir(d: Dir, id: Uuid, g': Half)
    requires DirOk(d) && id in d.halves && PhaseMove(d.halves[id], g')
    ensures DirOk(Put(d, id, g'))
  {
    if g' == d.halves[id] {
      assert Put(d, id, g') == d;
    } else {
      PhaseKeeps(d, id, g');
    }
  }

  lemma LocalMoves(l: Local, h: Shake, opens: nat, acks: nat, naks: nat)
    requires LocalAllows(l, h) && h != Accept && LocalOk(l, opens, acks, naks)
    ensures PhaseMove(l.down, LocalNext(l, h).down) && PhaseMove(l.up, LocalNext(l, h).up)
  {
  }

  lemma HandshakeKeepsDirs(s: State, id: Uuid, h: Shake)
    requires DirOk(s.down) && DirOk(s.up) && Possible(s, Handshake(id, h)) && (h != Accept ==> ConnOk(s, id))
    ensures DirOk(Next(s, Handshake(id, h)).down) && DirOk(Next(s, Handshake(id, h)).up)
  {
    var l := LocalOf(s, id);
    var l', d, u := LocalNext(l, h), DownTransfer(s.down, id, h), UpTransfer(s.up, l, id, h);
    TransfersKeepDirs(s, id, h);
    if h == Accept {
      AddKeeps(d, id, l'.down);
      AddKeeps(u, id, l'.up);
    } else {
      LocalMoves(l, h, InTransit(s.down, Open(id)), InTransit(s.up, Ack(id, true)), InTransit(s.up, Ack(id, false)));
      PutKeepsDir(d, id, l'.down);
      PutKeepsDir(u, id, l'.up);
    }
  }

  lemma TransfersKeepDirs(s: State, id: Uuid, h: Shake)
    requires DirOk(s.down) && DirOk(s.up) && TransferAllows(s, id, h)
    ensures var d := DownTransfer(s.down, id, h); DirOk(d) && d.halves == s.down.halves
    ensures var u := UpTransfer(s.up, LocalOf(s, id), id, h); DirOk(u) && u.halves == s.up.halves
  {
    var d, u := DownTransfer(s.down, id, h), UpTransfer(s.up, LocalOf(s, id), id, h);
    if d != s.down {
      ControlKeeps(s.down, d, Open(id));
    }
    if u != s.up {
      ControlKeeps(s.up, u, if TakesAnswer(h) then Ack(id, h.accepted) else Answer(LocalOf(s, id), id));
    }
  }

  lemma HandshakeKeys(s: State, id: Uuid, h: Shake)
    requires Possible(s, Handshake(id, h))
    ensures var s' := Next(s, Handshake(id, h));
            && s'.conns.Keys == s.conns.Keys + {id}
            && s'.down.halves.Keys == s.down.halves.Keys + {id}
            && s'.up.halves.Keys == s.up.halves.Keys + {id}
  {
  }

  lemma HandshakeKeepsConns(s: State, id: Uuid, h: Shake)
    requires TrafficOk(s) && ConnsOk(s) && Possible(s, Handshake(id, h))
    ensures ConnsOk(Next(s, Handshake(id, h)))
  {
    HandshakeKeys(s, id, h);
    forall j | j in s.conns || j == id ensures ConnOk(Next(s, Handshake(id, h)), j) {
      HandshakeConn(s, id, h, j);
    }
  }

  lemma HandshakeSteps(s: State, id: Uuid, h: Shake)
    requires RelayOk(s) && Possible(s, Handshake(id, h))
    ensures RelayOk(Next(s, Handshake(id, h)))
  {
    HandshakeKeepsDirs(s, id, h);
    HandshakeKeepsTraffic(s, id, h);
    HandshakeKeepsConns(s, id, h);
  }

  // ---------------------------------------------------------------- preservation: data

  lemma SamePhaseOk(l: Local, l': Local, opens: nat, acks: nat, naks: nat)
    requires LocalOk(l, opens, acks, naks)
    requires l'.conn == l.conn && SamePhase(l.down, l'.down) && SamePhase(l.up, l'.up)
    ensures LocalOk(l', opens, acks, naks)
  {
  }

  lemma DataTraffic(d: Dir, st: DirStep, ids: set<Uuid>)
    requires Enabled(d, st)
    ensures DownTraffic(d, ids) ==> DownTraffic(Apply(d, st), ids)
    ensures UpTraffic(d, ids) ==> UpTraffic(Apply(d, st), ids)
  {
  }

  lemma DataConn(s: State, step: Step, id: Uuid)
    requires ConnOk(s, id) && Possible(s, step) && (step.Down? || step.Up?)
    ensures ConnOk(Next(s, step), id)
  {
    var s', d := Next(s, step), if step.Down? then s.down else s.up;
    StepKeepsPhase(d, step.s, id);
    StepKeepsControl(d, step.s, Open(id));
    StepKeepsControl(d, step.s, Ack(id, true));
    StepKeepsControl(d, step.s, Ack(id, false));
    SamePhaseOk(LocalOf(s, id), LocalOf(s', id),
                InTransit(s.down, Open(id)), InTransit(s.up, Ack(id, true)), InTransit(s.up, Ack(id, false)));
  }

  lemma DataSteps(s: State, step: Step)
    requires RelayOk(s) && Possible(s, step) && (step.Down? || step.Up?)
    ensures RelayOk(Next(s, step))
  {
    var s', d := Next(s, step), if step.Down? then s.down else s.up;
    StepKeepsDirOk(d, step.s);
    DataTraffic(d, step.s, s.conns.Keys);
    forall id | id in s.conns ensures ConnOk(s', id) {
      DataConn(s, step, id);
    }
  }

  // ---------------------------------------------------------------- preservation: the heartbeat

  /** A heartbeat moves one control message of its own in each direction, and touches no stream. */
  lemma PulseMoves(s: State, p: Pulse)
    requires PulseAllows(s, p)
    ensures var t := Beaten(s, p);
      && t.conns == s.conns
      && (t.up == s.up || MovedControl(s.up, t.up, Ping)) && (t.down == s.down || MovedControl(s.down, t.down, Pong))
  {
  }

  lemma PulseKeepsTraffic(s: State, p: Pulse)
    requires TrafficOk(s) && PulseAllows(s, p)
    ensures TrafficOk(Beaten(s, p))
  {
    var t := Beaten(s, p);
    forall m | m in t.down.ctl + t.down.flight + t.down.chan ensures DownMsg(m, s.conns.Keys) {
      assert m in s.down.ctl || m in s.down.flight || m in s.down.chan || m == Pong;
    }
    forall m | m in t.up.flight + t.up.chan ensures UpMsg(m, s.conns.Keys) {
      assert m in s.up.flight || m in s.up.chan || m == Ping;
    }
  }

  lemma ControlCounts(d: Dir, d': Dir, m: Msg, x: Msg)
    requires MovedControl(d, d', m) && x != m
    ensures InTransit(d', x) == InTransit(d, x)
  {
    CountSnoc(d.ctl, m, x);
    CountSnoc(d.chan, m, x);
  }

  lemma PulseCounts(s: State, p: Pulse, id: Uuid)
    requires PulseAllows(s, p)
    ensures InTransit(Beaten(s, p).down, Open(id)) == InTransit(s.down, Open(id))
    ensures forall b :: InTransit(Beaten(s, p).up, Ack(id, b)) == InTransit(s.up, Ack(id, b))
  {
    hide InTransit;
    PulseMoves(s, p);
    hide Beaten;
    var t := Beaten(s, p);
    if t.down != s.down {
      ControlCounts(s.down, t.down, Pong, Open(id));
    }
    if t.up != s.up {
      ControlCounts(s.up, t.up, Ping, Ack(id, true));
      ControlCounts(s.up, t.up, Ping, Ack(id, false));
    }
  }

  lemma PulseSteps(s: State, p: Pulse)
    requires RelayOk(s) && PulseAllows(s, p)
    ensures RelayOk(Beaten(s, p))
  {
    var t := Beaten(s, p);
    hide DirOk;
    hide TrafficOk;
    PulseMoves(s, p);
    PulseKeepsTraffic(s, p);
    if t.up != s.up {
      ControlKeeps(s.up, t.up, Ping);
    }
    if t.down != s.down {
      ControlKeeps(s.down, t.down, Pong);
    }
    hide MovedControl;
    hide LocalOk;
    forall id | id in s.conns ensures ConnOk(t, id) {
      assert ConnOk(s, id);
      PulseCounts(s, p, id);
      PulseKeepsLocals(s, p, id);
    }
    assert KeysOk(t) by {
      PulseKeepsKeys(s, p);
    }
    hide Beaten;
  }

  lemma PulseKeepsKeys(s: State, p: Pulse)
    requires PulseAllows(s, p) && KeysOk(s)
    ensures KeysOk(Beaten(s, p))
  {
  }

  lemma PulseKeepsLocals(s: State, p: Pulse, id: Uuid)
    requires PulseAllows(s, p)
    ensures LocalOf(Beaten(s, p), id) == LocalOf(s, id) && (HasConn(s, id) ==> HasConn(Beaten(s, p), id))
  {
  }

  /** Every step of the relay keeps the invariant. */
  lemma StepKeepsRelayOk(s: State, step: Step)
    requires RelayOk(s) && Possible(s, step)
    ensures RelayOk(Next(s, step))
  {
    match step
    case Handshake(id, h) => HandshakeSteps(s, id, h);
    case Heart(p) => PulseSteps(s, p);
    case _ => DataSteps(s, step);
  }

  // ---------------------------------------------------------------- runs

  ghost predicate Run(s: State, steps: seq<Step>, t: State)
    decreases |steps|
  {
    if steps == [] then s == t
    else Possible(s, steps[0]) && Run(Next(s, steps[0]), steps[1..], t)
  }

  lemma {:induction false} OneStep(a: State, step: Step)
    requires Possible(a, step)
    ensures Run(a, [step], Next(a, step))
  {
    assert [step][1..] == [];
    assert Run(Next(a, step), [], Next(a, step));
  }

  lemma {:induction false} RunsJoin(a: State, s1: seq<Step>, b: State, s2: seq<Step>, c: State)
    requires Run(a, s1, b) && Run(b, s2, c)
    ensures Run(a, s1 + s2, c)
    decreases |s1|
  {
    hide Possible;
    hide Next;
    if s1 == [] {
      assert s1 + s2 == s2;
    } else {
      RunsJoin(Next(a, s1[0]), s1[1..], b, s2, c);
      assert (s1 + s2)[1..] == s1[1..] + s2 && (s1 + s2)[0] == s1[0];
    }
  }

  lemma {:induction false} RunKeepsRelayOk(s: State, steps: seq<Step>, t: State)
    requires RelayOk(s) && Run(s, steps, t)
    ensures RelayOk(t)
    decreases |steps|
  {
    if steps != [] {
      StepKeepsRelayOk(s, steps[0]);
      RunKeepsRelayOk(Next(s, steps[0]), steps[1..], t);
    }
  }

  ghost predicate Reachable(t: State) {
    exists steps :: Run(INITIAL, steps, t)
  }

  lemma InitialIsOk()
    ensures RelayOk(INITIAL)
  {
  }

  lemma ReachableIsOk(t: State)
    requires Reachable(t)
    ensures RelayOk(t)
  {
    var steps :| Run(INITIAL, steps, t);
    OkFromTheStart(steps, t);
  }

  // ---------------------------------------------------------------- main results

  /** Everything the environment delivered to the near socket of stream `id`, in one direction. */
  ghost function Arrived(steps: seq<Step>, id: Uuid, down: bool): seq<byte> {
    if steps == [] then []
    else ArrivedIn(steps[0], id, down) + Arrived(steps[1..], id, down)
  }

  function ArrivedIn(step: Step, id: Uuid, down: bool): seq<byte> {
    match step
    case Down(st) => if down && st.Arrive? && st.id == id then st.bytes else []
    case Up(st) => if !down && st.Arrive? && st.id == id then st.bytes else []
    case _ => []
  }

  function HalfOf(s: State, id: Uuid, down: bool): Half {
    if down then LocalOf(s, id).down else LocalOf(s, id).up
  }

  lemma ArrivalIsKept(d: Dir, st: DirStep, id: Uuid)
    requires Enabled(d, st) && id in d.halves
    ensures var h, h' := d.halves[id], Apply(d, st).halves[id];
            h'.read + h'.unread == h.read + h.unread + (if st.Arrive? && st.id == id then st.bytes else [])
  {
  }

  lemma StepKeepsKeys(s: State, step: Step)
    requires KeysOk(s) && Possible(s, step)
    ensures KeysOk(Next(s, step))
  {
    if step.Handshake? {
      HandshakeKeys(s, step.id, step.h);
    } else if !step.Heart? {
      assert Apply(if step.Down? then s.down else s.up, step.s).halves.Keys == s.conns.Keys;
    }
  }

  lemma HandshakeAccountsForArrivals(s: State, id: Uuid, h: Shake, j: Uuid, down: bool)
    requires Possible(s, Handshake(id, h))
    ensures var g, g' := HalfOf(s, j, down), HalfOf(Next(s, Handshake(id, h)), j, down);
            g'.read == g.read && g'.unread == g.unread
  {
    var l := LocalOf(s, id);
    var t := s.(down := DownTransfer(s.down, id, h), up := UpTransfer(s.up, l, id, h));
    TransferKeepsLocals(s, id, h, j);
    PutIsLocal(t, id, LocalNext(l, h), j);
  }

  lemma StepAccountsForArrivals(s: State, step: Step, id: Uuid, down: bool)
    requires KeysOk(s) && Possible(s, step)
    ensures var h, h' := HalfOf(s, id, down), HalfOf(Next(s, step), id, down);
            h'.read + h'.unread == h.read + h.unread + ArrivedIn(step, id, down)
  {
    if step.Handshake? {
      HandshakeAccountsForArrivals(s, step.id, step.h, id, down);
    } else if step.Heart? {
      PulseKeepsLocals(s, step.p, id);
    } else if id in s.conns {
      ArrivalIsKept(if step.Down? then s.down else s.up, step.s, id);
    }
  }

  lemma {:induction false} ArrivedJoins(s1: seq<Step>, s2: seq<Step>, id: Uuid, down: bool)
    ensures Arrived(s1 + s2, id, down) == Arrived(s1, id, down) + Arrived(s2, id, down)
  {
    if s1 == [] {
      assert s1 + s2 == s2;
    } else {
      ArrivedJoins(s1[1..], s2, id, down);
      assert (s1 + s2)[1..] == s1[1..] + s2 && (s1 + s2)[0] == s1[0];
      Associate(ArrivedIn(s1[0], id, down), Arrived(s1[1..], id, down), Arrived(s2, id, down));
    }
  }

  lemma {:induction false} RunAccountsForArrivals(s: State, steps: seq<Step>, t: State, id: Uuid, down: bool)
    requires KeysOk(s) && Run(s, steps, t)
    ensures var h, h' := HalfOf(s, id, down), HalfOf(t, id, down);
            h'.read + h'.unread == h.read + h.unread + Arrived(steps, id, down)
    decreases |steps|
  {
    if steps == [] {
      assert HalfOf(s, id, down).unread + [] == HalfOf(s, id, down).unread;
    } else {
      var m := Next(s, steps[0]);
      StepAccountsForArrivals(s, steps[0], id, down);
      StepKeepsKeys(s, steps[0]);
      RunAccountsForArrivals(m, steps[1..], t, id, down);
      Associate(HalfOf(s, id, down).read + HalfOf(s, id, down).unread, ArrivedIn(steps[0], id, down), Arrived(steps[1..], id, down));
    }
  }

  lemma HalfIsOk(s: State, id: Uuid, down: bool)
    requires RelayOk(s) && id in s.conns
    ensures HalfOk(HalfOf(s, id, down), OnWay(if down then s.down else s.up, id), id)
  {
  }

  lemma {:induction false} ArrivalsFromTheStart(steps: seq<Step>, t: State, id: Uuid, down: bool)
    requires Run(INITIAL, steps, t)
    ensures HalfOf(t, id, down).read + HalfOf(t, id, down).unread == Arrived(steps, id, down)
  {
    RunAccountsForArrivals(INITIAL, steps, t, id, down);
    assert HalfOf(INITIAL, id, down) == NEW_HALF;
  }

  lemma {:induction false} OkFromTheStart(steps: seq<Step>, t: State)
    requires Run(INITIAL, steps, t)
    ensures RelayOk(t)
  {
    InitialIsOk();
    RunKeepsRelayOk(INITIAL, steps, t);
  }

  /** What a run from the start guarantees about one half. */
  lemma {:induction false} HalfReached(steps: seq<Step>, t: State, id: Uuid, down: bool)
    requires Run(INITIAL, steps, t) && id in t.conns
    ensures HalfOk(HalfOf(t, id, down), OnWay(if down then t.down else t.up, id), id)
    ensures HalfOf(t, id, down).read + HalfOf(t, id, down).unread == Arrived(steps, id, down)
  {
    OkFromTheStart(steps, t);
    HalfIsOk(t, id, down);
    ArrivalsFromTheStart(steps, t, id, down);
  }

  /** Order, integrity and isolation: after any run of any number of interleaved streams, what has been
      written at the far socket of a stream is a prefix of what reached its own near socket, in either
      direction; no byte is lost, reordered, duplicated or taken from another stream on the way. */
  lemma {:induction false} StreamIntegrity(steps: seq<Step>, t: State, id: Uuid, down: bool)
    requires Run(INITIAL, steps, t) && id in t.conns
    ensures HalfOf(t, id, down).written <= Arrived(steps, id, down)
  {
    HalfReached(steps, t, id, down);
    var h := HalfOf(t, id, down);
    WrittenIsPrefixOfRead(h, OnWay(if down then t.down else t.up, id), id);
    assert h.written <= h.read <= h.read + h.unread;
  }

  /** End of stream: a direction carries at most one FIN, after its last DATA frame, and when the FIN has
      shut the far writer down, every byte that reached the near socket has been written, and that
      socket's peer has indeed stopped sending. */
  lemma {:induction false} FinIsExact(steps: seq<Step>, t: State, id: Uuid, down: bool)
    requires Run(INITIAL, steps, t) && id in t.conns
    ensures Orderly(HalfOf(t, id, down).emitted, id)
    ensures HalfOf(t, id, down).sink == Shut ==>
              HalfOf(t, id, down).written == Arrived(steps, id, down) && HalfOf(t, id, down).eof
  {
    HalfReached(steps, t, id, down);
    var h := HalfOf(t, id, down);
    if h.sink == Shut {
      ShutMeansComplete(h, OnWay(if down then t.down else t.up, id), id);
      assert h.read + [] == h.read;
    }
  }

  /** Registration precedes traffic: no frame is handed to the carrier before the far end has a receiver
      for it, and while that receiver exists every frame handed over is consumed, queued or on its way. */
  lemma NoFrameWithoutReceiver(t: State, id: Uuid, down: bool)
    requires Reachable(t) && id in t.conns
    ensures var h := HalfOf(t, id, down);
      && (h.emitted != [] ==> h.receiver != Absent)
      && (h.receiver == Listening ==> h.emitted == h.consumed + h.queue + OnWay(if down then t.down else t.up, id))
  {
    ReachableIsOk(t);
    HalfIsOk(t, id, down);
  }

  /** Half-close: a connection keeps its receivers and its map entries at both ends until both of its
      directions are over there, so a FIN one way never cuts off the other way. */
  lemma HalfCloseKeepsTheOtherWay(t: State, id: Uuid)
    requires Reachable(t) && id in t.conns
    ensures var l := LocalOf(t, id);
      && (l.conn.server == SBridging || (l.conn.server == SEnded && l.down.source != Idle) ==>
            (l.conn.inServer && l.up.receiver == Listening) || (SourceOver(l.down) && SinkOver(l.up)))
      && (l.conn.agent == ABridging || l.conn.agent == AEnded ==>
            l.conn.inAgent || (SinkOver(l.down) && SourceOver(l.up)))
      && (l.conn.agent == ABridging && !SinkOver(l.down) ==> l.down.receiver == Listening)
  {
    ReachableIsOk(t);
    assert ConnOk(t, id);
    hide RelayOk;
    hide HalfOk;
    HalfCloseLocal(LocalOf(t, id), InTransit(t.down, Open(id)), InTransit(t.up, Ack(id, true)), InTransit(t.up, Ack(id, false)));
    hide LocalOk;
  }

  lemma HalfCloseLocal(l: Local, opens: nat, acks: nat, naks: nat)
    requires LocalOk(l, opens, acks, naks)
    ensures l.conn.server == SBridging || (l.conn.server == SEnded && l.down.source != Idle) ==>
              (l.conn.inServer && l.up.receiver == Listening) || (SourceOver(l.down) && SinkOver(l.up))
    ensures l.conn.agent == ABridging || l.conn.agent == AEnded ==> l.conn.inAgent || (SinkOver(l.down) && SourceOver(l.up))
    ensures l.conn.agent == ABridging && !SinkOver(l.down) ==> l.down.receiver == Listening
  {
  }
}
