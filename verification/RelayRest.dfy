/** The relay at rest: what has been delivered when no internal step is possible, and when exactly a
    router waits behind one stream, given the sockets and handshakes that do not progress. */
module RelayRest {
  import opened Bytes
  import opened Protocol
  import opened Pipeline
  import opened Relay
  import opened RelayProgress

  // ---------------------------------------------------------------- the answer precedes the data

  function UpPath(u: Dir): seq<Msg> {
    u.flight + u.chan
  }

  /** No frame of stream `id` is ahead of the stream's acceptance. */
  predicate AckFirst(ms: seq<Msg>, id: Uuid) {
    if ms == [] then true
    else if ms[0].Carry? && ms[0].frame.id == id then Ack(id, true) !in ms[1..]
    else AckFirst(ms[1..], id)
  }

  predicate NothingArrived(u: Dir, id: Uuid) {
    HandOf(u.hand, id) == [] && (id in u.halves ==> u.halves[id].queue == [])
  }

  predicate LeadsAt(u: Dir, id: Uuid) {
    AckFirst(UpPath(u), id) && (Ack(id, true) in UpPath(u) ==> NothingArrived(u, id))
  }

  /** While the server still waits for an answer, an acceptance on its way is ahead of all the data. */
  ghost predicate AnswersLead(s: State) {
    forall id :: id in s.conns && s.conns[id].server == SWaiting ==> LeadsAt(s.up, id)
  }

  lemma {:induction false} NoAckLeads(ms: seq<Msg>, id: Uuid)
    requires Ack(id, true) !in ms
    ensures AckFirst(ms, id)
  {
    if ms != [] {
      NoAckLeads(ms[1..], id);
    }
  }

  lemma {:induction false} NoFrameLeads(ms: seq<Msg>, id: Uuid)
    requires FramesOf(ms, id) == []
    ensures AckFirst(ms, id)
  {
    if ms != [] {
      assert FrameOf(ms[0], id) == [];
      NoFrameLeads(ms[1..], id);
    }
  }

  lemma {:induction false} LeadsDrop(ms: seq<Msg>, id: Uuid)
    requires ms != [] && AckFirst(ms, id)
    ensures AckFirst(ms[1..], id)
  {
    if Ack(id, true) !in ms[1..] {
      NoAckLeads(ms[1..], id);
    }
  }

  lemma {:induction false} LeadsSnoc(ms: seq<Msg>, m: Msg, id: Uuid)
    requires AckFirst(ms, id) && m != Ack(id, true)
    ensures AckFirst(ms + [m], id)
  {
    if ms == [] {
      assert ms + [m] == [m] && [m][1..] == [];
    } else {
      assert (ms + [m])[1..] == ms[1..] + [m];
      if !(ms[0].Carry? && ms[0].frame.id == id) {
        LeadsSnoc(ms[1..], m, id);
      }
    }
  }

  lemma UpDataLeads(u: Dir, st: DirStep, id: Uuid)
    requires Enabled(u, st) && LeadsAt(u, id) && u.ctl == []
    ensures LeadsAt(Apply(u, st), id)
  {
    var u' := Apply(u, st);
    match st
    case Emit(j) =>
      var m := Carry(u.halves[j].source.frame);
      assert UpPath(u') == UpPath(u) + [m];
      LeadsSnoc(UpPath(u), m, id);
    case TakeFrame =>
      assert UpPath(u') == UpPath(u);
    case Fetch =>
      assert UpPath(u') == UpPath(u)[1..];
      LeadsDrop(UpPath(u), id);
    case _ =>
  }

  lemma {:induction false} UpTransferLeads(u: Dir, l: Local, id: Uuid, h: Shake, j: Uuid)
    requires LeadsAt(u, j)
    requires h == SendAnswer && j == id && l.conn.agent == ARegistered ==> FramesOf(UpPath(u), id) == [] && NothingArrived(u, id)
    ensures LeadsAt(UpTransfer(u, l, id, h), j)
  {
    var u' := UpTransfer(u, l, id, h);
    if h == SendAnswer {
      var m := Answer(l, id);
      assert UpPath(u') == UpPath(u) + [m];
      if m == Ack(j, true) {
        FramesOfSnoc(UpPath(u), m, j);
        NoFrameLeads(UpPath(u'), j);
      } else {
        LeadsSnoc(UpPath(u), m, j);
      }
    } else if TakesAnswer(h) && u.flight != [] {
      assert UpPath(u') == UpPath(u)[1..];
      LeadsDrop(UpPath(u), j);
    }
  }

  /** Before the agent starts bridging, none of its frames can be anywhere. */
  lemma {:induction false} IdleMeansEmpty(s: State, id: Uuid)
    requires DirOk(s.up) && ConnOk(s, id) && s.conns[id].server == SWaiting && s.up.halves[id].source == Idle
    ensures FramesOf(UpPath(s.up), id) == [] && NothingArrived(s.up, id)
  {
    var h := s.up.halves[id];
    assert HalfOk(h, OnWay(s.up, id), id);
    assert h.consumed + h.queue + OnWay(s.up, id) == [];
    FramesOfAppend(s.up.flight, s.up.chan, id);
  }

  lemma PutLeads(u: Dir, id: Uuid, g: Half, j: Uuid)
    requires LeadsAt(u, j) && (j == id ==> g.queue == [] || (id in u.halves && g.queue == u.halves[id].queue))
    ensures LeadsAt(Put(u, id, g), j)
  {
    assert UpPath(Put(u, id, g)) == UpPath(u);
  }

  lemma AcceptLeads(s: State, id: Uuid)
    requires TrafficOk(s) && Possible(s, Handshake(id, Accept))
    ensures LeadsAt(s.up, id)
  {
    NothingInTransit(s, id);
    NoneInTransit(s.up, Ack(id, true));
    NoAckLeads(UpPath(s.up), id);
  }

  /** A connection that waits after a handshake step waited before it, unless it was accepted just now. */
  lemma WaitedBefore(s: State, id: Uuid, h: Shake, j: Uuid)
    requires Possible(s, Handshake(id, h)) && !(j == id && h == Accept)
    requires j in Next(s, Handshake(id, h)).conns && Next(s, Handshake(id, h)).conns[j].server == SWaiting
    ensures j in s.conns && s.conns[j].server == SWaiting
  {
  }

  /** The stream's channel at the server is as it was, or empty. */
  lemma ShakeQueues(s: State, id: Uuid, h: Shake)
    requires Possible(s, Handshake(id, h))
    ensures var g := LocalNext(LocalOf(s, id), h).up;
            g.queue == [] || (id in s.up.halves && g.queue == s.up.halves[id].queue)
    ensures Next(s, Handshake(id, h)).up == Put(UpTransfer(s.up, LocalOf(s, id), id, h), id, LocalNext(LocalOf(s, id), h).up)
    ensures UpTransfer(s.up, LocalOf(s, id), id, h).halves == s.up.halves
    ensures h == Accept ==> UpTransfer(s.up, LocalOf(s, id), id, h) == s.up
  {
  }

  lemma HandshakeLeads(s: State, id: Uuid, h: Shake, j: Uuid)
    requires DirOk(s.up) && TrafficOk(s) && ConnsOk(s) && AnswersLead(s) && Possible(s, Handshake(id, h))
    requires j in Next(s, Handshake(id, h)).conns && Next(s, Handshake(id, h)).conns[j].server == SWaiting
    ensures LeadsAt(Next(s, Handshake(id, h)).up, j)
  {
    hide DirOk;
    hide LeadsAt;
    hide TrafficOk;
    hide LocalOk;
    hide UpTransfer;
    hide LocalNext;
    var l := LocalOf(s, id);
    ShakeQueues(s, id, h);
    if j == id && h == Accept {
      AcceptLeads(s, id);
    } else {
      WaitedBefore(s, id, h, j);
      hide Next;
      assert ConnOk(s, j);
      if j == id && h == SendAnswer && l.conn.agent == ARegistered {
        RegisteredIsIdle(s, id);
        IdleMeansEmpty(s, id);
      }
      UpTransferLeads(s.up, l, id, h, j);
    }
    PutLeads(UpTransfer(s.up, l, id, h), id, LocalNext(l, h).up, j);
  }

  lemma RegisteredIsIdle(s: State, id: Uuid)
    requires ConnOk(s, id) && s.conns[id].agent == ARegistered
    ensures s.up.halves[id].source == Idle
  {
  }

  lemma PulseLeads(s: State, p: Pulse, id: Uuid)
    requires PulseAllows(s, p) && LeadsAt(s.up, id)
    ensures LeadsAt(Beaten(s, p).up, id)
  {
    var u, u' := s.up, Beaten(s, p).up;
    if p == SendPing {
      assert UpPath(u') == UpPath(u) + [Ping];
      LeadsSnoc(UpPath(u), Ping, id);
    } else if p == TakePing {
      assert UpPath(u') == UpPath(u)[1..];
      LeadsDrop(UpPath(u), id);
    }
  }

  lemma StepKeepsAnswersLead(s: State, step: Step)
    requires RelayOk(s) && AnswersLead(s) && Possible(s, step)
    ensures AnswersLead(Next(s, step))
  {
    var s' := Next(s, step);
    forall j | j in s'.conns && s'.conns[j].server == SWaiting ensures LeadsAt(s'.up, j) {
      match step
      case Handshake(id, h) => HandshakeLeads(s, id, h, j);
      case Heart(p) => PulseLeads(s, p, j);
      case Up(st) => UpDataLeads(s.up, st, j);
      case Down(_) =>
    }
  }

  lemma {:induction false} RunKeepsAnswersLead(s: State, steps: seq<Step>, t: State)
    requires RelayOk(s) && AnswersLead(s) && Run(s, steps, t)
    ensures AnswersLead(t)
    decreases |steps|
  {
    if steps != [] {
      StepKeepsAnswersLead(s, steps[0]);
      StepKeepsRelayOk(s, steps[0]);
      RunKeepsAnswersLead(Next(s, steps[0]), steps[1..], t);
    }
  }

  // ---------------------------------------------------------------- at rest

  /** No step of the relay's own is possible, except those that the obstacles in `stuck` hold up. */
  ghost predicate RestingUnder(s: State, stuck: set<Obstacle>) {
    forall step :: Internal(step) && !Hindered(stuck, step) ==> !Possible(s, step)
  }

  /** At rest with every socket accepting and every local connection attempt and handshake ending. */
  ghost predicate Resting(s: State) {
    RestingUnder(s, {})
  }

  function DirOf(s: State, down: bool): Dir {
    if down then s.down else s.up
  }

  function Wrap(down: bool, st: DirStep): Step {
    if down then Down(st) else Up(st)
  }

  function FarSocket(down: bool, id: Uuid): Obstacle {
    if down then LocalSocket(id) else PublicSocket(id)
  }

  /** `listens`: the reader at the end of this direction is at its carrier. */
  ghost predicate DirResting(d: Dir, stuck: set<Obstacle>, down: bool, listens: bool) {
    forall st :: InternalData(st) && !Hindered(stuck, Wrap(down, st)) && (st == Fetch ==> listens) ==> !Enabled(d, st)
  }

  /** A half that can do nothing by itself; `room` says whether the outbound channel has room. */
  predicate HalfStill(h: Half, accepts: bool, room: bool) {
    && (room ==> !h.source.Holding?)
    && (h.source == Reading ==> h.unread == [] && !h.eof)
    && (h.sink.Writing? && accepts ==> h.sink.rest == [])
    && (h.sink == Waiting ==> h.queue == [])
  }

  predicate Accepts(stuck: set<Obstacle>, down: bool, id: Uuid) {
    FarSocket(down, id) !in stuck
  }

  lemma RestingDir(d: Dir, stuck: set<Obstacle>, down: bool, listens: bool)
    requires DirResting(d, stuck, down, listens)
    ensures Carrier(down) !in stuck ==> d.ctl == [] && d.chan == []
    ensures d.hand == None && listens ==> d.flight == [] || !d.flight[0].Carry?
    ensures d.hand.Some? ==>
      var id := d.hand.value.id; id in d.halves && d.halves[id].receiver == Listening && |d.halves[id].queue| >= STREAM_SLOTS
    ensures forall id :: id in d.halves ==> HalfStill(d.halves[id], Accepts(stuck, down, id), |d.chan| < CHANNEL_SLOTS)
  {
    assert InternalData(TakeControl) && InternalData(TakeFrame) && InternalData(Fetch) && InternalData(Route);
    assert Carrier(down) !in stuck ==> !Hindered(stuck, Wrap(down, TakeControl)) && !Hindered(stuck, Wrap(down, TakeFrame));
    assert !Hindered(stuck, Wrap(down, Fetch)) && !Hindered(stuck, Wrap(down, Route));
    forall id | id in d.halves ensures HalfStill(d.halves[id], Accepts(stuck, down, id), |d.chan| < CHANNEL_SLOTS) {
      HalfIsStill(d, stuck, down, listens, id);
    }
  }

  lemma HalfIsStill(d: Dir, stuck: set<Obstacle>, down: bool, listens: bool, id: Uuid)
    requires DirResting(d, stuck, down, listens) && id in d.halves
    ensures HalfStill(d.halves[id], Accepts(stuck, down, id), |d.chan| < CHANNEL_SLOTS)
  {
    var h := d.halves[id];
    var n := if |h.unread| < READ_BUFFER then |h.unread| else READ_BUFFER;
    Unhindered(d, stuck, down, listens, Emit(id));
    Unhindered(d, stuck, down, listens, ReadEof(id));
    Unhindered(d, stuck, down, listens, Read(id, n));
    Unhindered(d, stuck, down, listens, Pop(id));
    if Accepts(stuck, down, id) {
      Unhindered(d, stuck, down, listens, Write(id, 1));
    }
  }

  lemma Unhindered(d: Dir, stuck: set<Obstacle>, down: bool, listens: bool, st: DirStep)
    requires DirResting(d, stuck, down, listens) && InternalData(st) && !Departs(st) && st != Fetch
    requires st.Write? ==> Accepts(stuck, down, st.id)
    ensures !Enabled(d, st)
  {
    assert !Hindered(stuck, Wrap(down, st));
  }

  lemma RestingDirs(s: State, stuck: set<Obstacle>)
    requires RestingUnder(s, stuck)
    ensures DirResting(s.down, stuck, true, !s.pinging) && DirResting(s.up, stuck, false, true)
  {
    forall st | InternalData(st) && !Hindered(stuck, Wrap(true, st)) && (st == Fetch ==> !s.pinging) ensures !Enabled(s.down, st) {
      assert Internal(Down(st)) && !Possible(s, Down(st));
    }
    forall st | InternalData(st) && !Hindered(stuck, Wrap(false, st)) ensures !Enabled(s.up, st) {
      assert Internal(Up(st)) && !Possible(s, Up(st));
    }
  }

  lemma Blocked(s: State, stuck: set<Obstacle>, step: Step)
    requires RestingUnder(s, stuck) && Internal(step) && !Hindered(stuck, step)
    ensures !Possible(s, step)
  {
  }

  /** What resting means for the two directions. */
  lemma RestingSides(s: State, stuck: set<Obstacle>, id: Uuid)
    requires RestingUnder(s, stuck) && HasConn(s, id)
    ensures HalfStill(s.down.halves[id], Accepts(stuck, true, id), |s.down.chan| < CHANNEL_SLOTS)
    ensures HalfStill(s.up.halves[id], Accepts(stuck, false, id), |s.up.chan| < CHANNEL_SLOTS)
  {
    RestingDirs(s, stuck);
    RestingDir(s.down, stuck, true, !s.pinging);
    RestingDir(s.up, stuck, false, true);
  }

  lemma NotPossible(s: State, stuck: set<Obstacle>, id: Uuid, h: Shake)
    requires RestingUnder(s, stuck) && HasConn(s, id) && Internal(Handshake(id, h)) && !Hindered(stuck, Handshake(id, h))
    requires TransferAllows(s, id, h)
    ensures !LocalAllows(LocalOf(s, id), h)
  {
    assert !Possible(s, Handshake(id, h));
  }

  lemma AgentAtRest(s: State, stuck: set<Obstacle>, id: Uuid)
    requires RestingUnder(s, stuck) && HasConn(s, id)
    ensures var l := LocalOf(s, id);
      && (l.conn.agent == ADialing ==> Dialling(id) in stuck)
      && (l.conn.agent == AAccepted ==> LocalTls(id) in stuck)
      && (l.conn.agent == ARegistered || l.conn.agent == ARefusing ==> |s.up.chan| >= CHANNEL_SLOTS)
  {
    hide RestingUnder;
    if Dialling(id) !in stuck {
      NotPossible(s, stuck, id, DialOk);
    }
    if LocalTls(id) !in stuck {
      NotPossible(s, stuck, id, AgentStart);
    }
    if |s.up.chan| < CHANNEL_SLOTS {
      NotPossible(s, stuck, id, SendAnswer);
    }
  }

  /** Whether the entry of `id` cannot be removed at one end: a router holds its lock, or the lock of its
      shard. */
  predicate KeepsEntry(s: State, stuck: set<Obstacle>, id: Uuid, atServer: bool) {
    Locked(s, id, atServer) || (if atServer then ServerEntry(id) in stuck else AgentEntry(id) in stuck)
  }

  lemma AgentEndsAtRest(s: State, stuck: set<Obstacle>, id: Uuid)
    requires RestingUnder(s, stuck) && HasConn(s, id)
    ensures var l := LocalOf(s, id);
      && (l.conn.agent == ABridging && l.down.receiver == Listening ==> !SinkOver(l.down))
      && (l.conn.agent == ABridging && l.down.receiver == Dropped ==> !SourceOver(l.up) || KeepsEntry(s, stuck, id, false))
  {
    hide RestingUnder;
    NotPossible(s, stuck, id, AgentDrop);
    if !KeepsEntry(s, stuck, id, false) {
      NotPossible(s, stuck, id, AgentEnd);
    }
  }

  lemma ServerEndsAtRest(s: State, stuck: set<Obstacle>, id: Uuid)
    requires RestingUnder(s, stuck) && HasConn(s, id)
    ensures var l := LocalOf(s, id);
      && l.conn.server != SAccepted && (l.conn.server == SRefused ==> KeepsEntry(s, stuck, id, true))
      && (l.conn.server == SBridging && l.up.receiver == Listening ==> !(SourceOver(l.down) && SinkOver(l.up)))
      && (l.conn.server == SBridging && l.up.receiver == Dropped ==> KeepsEntry(s, stuck, id, true))
  {
    hide RestingUnder;
    NotPossible(s, stuck, id, ServerStart);
    NotPossible(s, stuck, id, ServerDrop);
    if !KeepsEntry(s, stuck, id, true) {
      NotPossible(s, stuck, id, ServerRefused);
      NotPossible(s, stuck, id, ServerEnd);
    }
  }

  /** The phases a connection can rest in. */
  lemma RestingPhases(s: State, stuck: set<Obstacle>, id: Uuid)
    requires RestingUnder(s, stuck) && HasConn(s, id)
    ensures var l := LocalOf(s, id);
      && (l.conn.agent == ADialing ==> Dialling(id) in stuck)
      && (l.conn.agent == AAccepted ==> LocalTls(id) in stuck)
      && (l.conn.agent == ARegistered || l.conn.agent == ARefusing ==> |s.up.chan| >= CHANNEL_SLOTS)
      && (l.conn.agent == ABridging && l.down.receiver == Listening ==> !SinkOver(l.down))
      && (l.conn.agent == ABridging && l.down.receiver == Dropped ==> !SourceOver(l.up) || KeepsEntry(s, stuck, id, false))
      && l.conn.server != SAccepted && (l.conn.server == SRefused ==> KeepsEntry(s, stuck, id, true))
      && (l.conn.server == SBridging && l.up.receiver == Listening ==> !(SourceOver(l.down) && SinkOver(l.up)))
      && (l.conn.server == SBridging && l.up.receiver == Dropped ==> KeepsEntry(s, stuck, id, true))
  {
    hide RestingUnder;
    AgentAtRest(s, stuck, id);
    AgentEndsAtRest(s, stuck, id);
    ServerEndsAtRest(s, stuck, id);
    hide KeepsEntry;
  }

  /** A reader that waits to send its heartbeat at rest waits for room. */
  lemma PingAtRest(s: State, stuck: set<Obstacle>)
    requires RestingUnder(s, stuck) && s.pinging
    ensures |s.up.chan| >= CHANNEL_SLOTS && Carrier(false) in stuck
  {
    Blocked(s, stuck, Heart(SendPing));
    RestingDirs(s, stuck);
    RestingDir(s.up, stuck, false, true);
  }

  // ---------------------------------------------------------------- when a router waits

  /** A router holds a frame for a channel that is being listened to and is full. */
  predicate HoldsForFull(d: Dir, id: Uuid) {
    && d.hand.Some? && d.hand.value.id == id && id in d.halves
    && d.halves[id].receiver == Listening && |d.halves[id].queue| == STREAM_SLOTS
  }

  /** Behind which stream the agent's router waits: its local socket accepts nothing, or its local TLS
      handshake has not ended. */
  predicate DownStall(s: State, stuck: set<Obstacle>, id: Uuid) {
    && HasConn(s, id) && HoldsForFull(s.down, id)
    && var l := LocalOf(s, id);
    || (l.down.sink.Writing? && LocalSocket(id) in stuck)
    || (l.down.sink == Unstarted && l.conn.agent == AAccepted && LocalTls(id) in stuck)
  }

  /** The outbound channel of the agent is full and the carrier to the server takes nothing. */
  predicate OutboundFull(s: State, stuck: set<Obstacle>) {
    |s.up.chan| == CHANNEL_SLOTS && Carrier(false) in stuck
  }

  /** Behind which stream the server's router waits: its public socket accepts nothing; or its answer was
      ignored, and nobody reads the channel before the wait times out; or writing to its public socket has
      failed while its reading half goes on, so that the bridge has not ended and still holds a channel it
      no longer reads. */
  predicate UpStall(s: State, stuck: set<Obstacle>, id: Uuid) {
    && HasConn(s, id) && HoldsForFull(s.up, id)
    && var l := LocalOf(s, id);
    || (l.up.sink.Writing? && PublicSocket(id) in stuck)
    || l.conn.server == SUnheard
    || (l.conn.server == SBridging && l.up.sink == Broken && ReadsOn(s, l.down))
  }

  /** The reading half is not over, and waits for its peer or for room in the outbound channel. */
  predicate ReadsOn(s: State, h: Half) {
    || (h.source == Reading && h.unread == [] && !h.eof)
    || (h.source.Holding? && |s.down.chan| >= CHANNEL_SLOTS)
  }

  lemma HandIsForFull(s: State, stuck: set<Obstacle>, down: bool) returns (id: Uuid)
    requires DirOk(DirOf(s, down)) && RestingUnder(s, stuck) && DirOf(s, down).hand.Some?
    ensures id == DirOf(s, down).hand.value.id && HoldsForFull(DirOf(s, down), id)
    ensures HalfOk(DirOf(s, down).halves[id], OnWay(DirOf(s, down), id), id)
  {
    RestingDirs(s, stuck);
    RestingDir(DirOf(s, down), stuck, down, !(down && s.pinging));
    id := DirOf(s, down).hand.value.id;
  }

  /** A shut writer has consumed everything, so nothing is queued for it. */
  lemma FullIsNotShut(h: Half, way: seq<CarrierFrame>, id: Uuid)
    requires HalfOk(h, way, id) && h.receiver == Listening && h.queue != []
    ensures h.sink != Shut && h.source != Idle
  {
    if h.sink == Shut {
      ShutMeansComplete(h, way, id);
      assert false;
    }
  }

  /** The agent's side of a half with something queued. */
  lemma AgentReader(l: Local, opens: nat, acks: nat, naks: nat)
    requires LocalOk(l, opens, acks, naks) && l.down.source != Idle && l.down.receiver == Listening
    ensures l.conn.agent == AAccepted || l.conn.agent == ABridging
    ensures l.conn.agent == AAccepted ==> l.down.sink == Unstarted
    ensures l.conn.agent == ABridging ==> l.down.sink != Unstarted
  {
  }

  lemma AgentRouterWaits(s: State, stuck: set<Obstacle>)
    requires RelayOk(s) && RestingUnder(s, stuck) && s.down.hand.Some?
    ensures DownStall(s, stuck, s.down.hand.value.id)
  {
    var id := HandIsForFull(s, stuck, true);
    assert ConnOk(s, id);
    hide RelayOk;
    var l := LocalOf(s, id);
    FullIsNotShut(l.down, OnWay(s.down, id), id);
    hide HalfOk;
    AgentReader(l, InTransit(s.down, Open(id)), InTransit(s.up, Ack(id, true)), InTransit(s.up, Ack(id, false)));
    hide LocalOk;
    RestingSides(s, stuck, id);
    RestingPhases(s, stuck, id);
    hide RestingUnder;
    SinkHasRest(s, id);
  }

  lemma SinkHasRest(s: State, id: Uuid)
    requires HasConn(s, id)
    ensures HalfOk(s.down.halves[id], OnWay(s.down, id), id) && s.down.halves[id].sink.Writing? ==> s.down.halves[id].sink.rest != []
    ensures HalfOk(s.up.halves[id], OnWay(s.up, id), id) && s.up.halves[id].sink.Writing? ==> s.up.halves[id].sink.rest != []
  {
  }

  /** While the server waits for an answer that was not ignored, nothing of the stream has arrived. */
  lemma WaitingQueueIsEmpty(s: State, id: Uuid)
    requires RelayOk(s) && AnswersLead(s) && ConnOk(s, id) && s.conns[id].server == SWaiting
    ensures NothingArrived(s.up, id)
  {
    var h := s.up.halves[id];
    if h.source == Idle {
      IdleMeansEmpty(s, id);
    } else {
      NoneInTransit(s.up, Ack(id, true));
      assert LeadsAt(s.up, id);
    }
  }

  /** The server's side of a half with something queued. */
  lemma ServerReader(l: Local, opens: nat, acks: nat, naks: nat)
    requires LocalOk(l, opens, acks, naks) && l.up.receiver == Listening && l.up.source != Idle && l.conn.server != SWaiting
    ensures l.conn.server == SUnheard || l.conn.server == SAccepted || l.conn.server == SBridging
    ensures l.conn.server == SBridging ==> l.up.sink != Unstarted && l.down.source != Idle
  {
  }

  lemma HandedIsHeard(s: State, id: Uuid)
    requires RelayOk(s) && AnswersLead(s) && id in s.conns && HandOf(s.up.hand, id) != []
    ensures s.conns[id].server != SWaiting
  {
    assert ConnOk(s, id);
    if s.conns[id].server == SWaiting {
      WaitingQueueIsEmpty(s, id);
    }
  }

  lemma ServerRouterWaits(s: State, stuck: set<Obstacle>)
    requires RelayOk(s) && AnswersLead(s) && RestingUnder(s, stuck) && s.up.hand.Some?
    ensures UpStall(s, stuck, s.up.hand.value.id)
  {
    hide RestingUnder;
    hide AnswersLead;
    hide HalfOk;
    hide LocalOk;
    hide TrafficOk;
    var id := HandIsForFull(s, stuck, false);
    HandedIsHeard(s, id);
    assert ConnOk(s, id);
    hide RelayOk;
    hide DirOk;
    hide ConnsOk;
    var l := LocalOf(s, id);
    FullIsNotShut(l.up, OnWay(s.up, id), id);
    SinkHasRest(s, id);
    ServerReader(l, InTransit(s.down, Open(id)), InTransit(s.up, Ack(id, true)), InTransit(s.up, Ack(id, false)));
    RestingSides(s, stuck, id);
    RestingPhases(s, stuck, id);
  }

  // ---------------------------------------------------------------- what is on a carrier at rest

  /** The step that takes a control message off a carrier. */
  function TakeControlMessage(m: Msg): Step
    requires !m.Carry?
  {
    match m
    case Open(id) => Handshake(id, TakeOpen)
    case Ack(id, accepted) => Handshake(id, TakeAnswer(accepted))
    case Ping => Heart(TakePing)
    case Pong => Heart(TakePong)
  }

  lemma DownIsKnown(s: State)
    requires TrafficOk(s) && ConnsOk(s) && s.down.flight != [] && !s.down.flight[0].Carry?
    ensures var m := s.down.flight[0]; (m.Open? && ConnOk(s, m.id)) || m.Pong?
  {
    var m := s.down.flight[0];
    assert m in s.down.flight && DownMsg(m, s.conns.Keys);
    hide ConnOk;
    hide UpTraffic;
  }

  lemma UpIsKnown(s: State)
    requires TrafficOk(s) && ConnsOk(s) && s.up.flight != [] && !s.up.flight[0].Carry?
    ensures var m := s.up.flight[0]; (m.Ack? && ConnOk(s, m.id)) || m.Ping?
  {
    var m := s.up.flight[0];
    assert m in s.up.flight && UpMsg(m, s.conns.Keys);
    hide ConnOk;
    hide DownTraffic;
  }

  lemma OpenIsExpected(l: Local, opens: nat, acks: nat, naks: nat)
    requires LocalOk(l, opens, acks, naks) && opens > 0
    ensures LocalAllows(l, TakeOpen)
  {
  }

  lemma DownCanBeTaken(s: State)
    requires TrafficOk(s) && ConnsOk(s) && s.down.hand == None && !s.pinging && s.down.flight != [] && !s.down.flight[0].Carry?
    ensures var step := TakeControlMessage(s.down.flight[0]); Internal(step) && !step.Down? && !step.Up? && Possible(s, step)
  {
    hide ConnsOk;
    hide TrafficOk;
    hide ConnOk;
    hide Possible;
    DownIsKnown(s);
    if s.down.flight[0].Open? {
      OpenCanBeTaken(s, s.down.flight[0].id);
    } else {
      BeatCanBeTaken(s, TakePong);
    }
  }

  lemma OpenCanBeTaken(s: State, id: Uuid)
    requires s.down.hand == None && !s.pinging && s.down.flight != [] && s.down.flight[0] == Open(id) && ConnOk(s, id)
    ensures Possible(s, Handshake(id, TakeOpen))
  {
    assert InTransit(s.down, Open(id)) > 0;
    hide InTransit;
    OpenIsExpected(LocalOf(s, id), InTransit(s.down, Open(id)), InTransit(s.up, Ack(id, true)), InTransit(s.up, Ack(id, false)));
    hide LocalOk;
  }

  lemma AnswerCanBeTaken(s: State, id: Uuid, accepted: bool)
    requires AnswerIsNext(s, id, accepted) && ConnOk(s, id)
    ensures Possible(s, Handshake(id, TakeAnswer(accepted)))
  {
    hide LocalOk;
  }

  lemma BeatCanBeTaken(s: State, p: Pulse)
    requires PulseAllows(s, p)
    ensures Possible(s, Heart(p))
  {
  }

  /** A carrier that is not stuck has nothing more to send, and the record it would read next, if any, is a
      control message. */
  lemma RestingCarrier(s: State, stuck: set<Obstacle>, down: bool)
    requires RestingUnder(s, stuck) && DirOf(s, down).hand == None && !(down && s.pinging)
    ensures Carrier(down) !in stuck ==> DirOf(s, down).ctl == [] && DirOf(s, down).chan == []
    ensures DirOf(s, down).flight == [] || !DirOf(s, down).flight[0].Carry?
  {
    RestingDirs(s, stuck);
    hide RestingUnder;
    RestingDir(DirOf(s, down), stuck, down, true);
  }

  lemma DownIsClear(s: State, stuck: set<Obstacle>)
    requires TrafficOk(s) && ConnsOk(s) && RestingUnder(s, stuck) && s.down.hand == None && !s.pinging
    ensures s.down.flight == [] && (Carrier(true) !in stuck ==> s.down.ctl == [] && s.down.chan == [])
  {
    hide RestingUnder;
    hide TrafficOk;
    hide ConnsOk;
    hide Possible;
    RestingCarrier(s, stuck, true);
    if s.down.flight != [] {
      DownCanBeTaken(s);
      Blocked(s, stuck, TakeControlMessage(s.down.flight[0]));
    }
  }

  lemma UpCanBeTaken(s: State)
    requires TrafficOk(s) && ConnsOk(s) && s.up.hand == None && s.up.flight != [] && !s.up.flight[0].Carry?
    ensures var step := TakeControlMessage(s.up.flight[0]); Internal(step) && !step.Down? && !step.Up? && Possible(s, step)
  {
    hide ConnsOk;
    hide TrafficOk;
    hide ConnOk;
    hide Possible;
    UpIsKnown(s);
    var m := s.up.flight[0];
    if m.Ack? {
      assert m == Ack(m.id, m.accepted);
      AnswerCanBeTaken(s, m.id, m.accepted);
    } else {
      BeatCanBeTaken(s, TakePing);
    }
  }

  lemma UpIsClear(s: State, stuck: set<Obstacle>)
    requires TrafficOk(s) && ConnsOk(s) && RestingUnder(s, stuck) && s.up.hand == None
    ensures s.up.flight == [] && (Carrier(false) !in stuck ==> s.up.chan == [])
  {
    hide RestingUnder;
    hide TrafficOk;
    hide ConnsOk;
    hide Possible;
    RestingCarrier(s, stuck, false);
    if s.up.flight != [] {
      UpCanBeTaken(s);
      Blocked(s, stuck, TakeControlMessage(s.up.flight[0]));
    }
  }

  // ---------------------------------------------------------------- what rest means for a connection

  /** Neither half of either bridge has failed, and the agent's answer was not ignored or given up on. */
  predicate Unfailed(l: Local) {
    && l.down.source != Aborted && l.down.sink != Broken && l.up.source != Aborted && l.up.sink != Broken
    && l.conn.agent != ALeaked && l.conn.server != SUnheard && l.conn.server != SGone
    && (l.conn.server == SEnded && l.down.source == Idle ==> l.conn.agent == ARefused)
  }

  /** Everything that reached the near socket has been written at the far one, and if the near peer has
      stopped sending, the far writer has been shut down. */
  predicate Delivered(h: Half) {
    h.unread == [] && h.written == h.read && (h.eof ==> h.sink == Shut)
  }

  lemma StillMeansDelivered(h: Half, id: Uuid)
    requires HalfOk(h, [], id) && HalfStill(h, true, true) && h.source != Aborted && h.sink != Broken
    requires h.source != Idle && h.sink != Unstarted
    ensures Delivered(h) && (h.source == Finished <==> h.sink == Shut)
  {
    if h.sink == Shut {
      ShutMeansComplete(h, [], id);
    } else {
      assert h.sink == Waiting && h.receiver == Listening;
      assert h.emitted == h.consumed + [] + [];
      assert h.consumed == h.emitted;
    }
  }

  /** Nothing holds up this connection, and no router or carrier holds up everybody. */
  predicate Clear(s: State, stuck: set<Obstacle>, id: Uuid) {
    && s.down.hand == None && s.up.hand == None && Carrier(true) !in stuck && Carrier(false) !in stuck
    && PublicSocket(id) !in stuck && LocalSocket(id) !in stuck && Dialling(id) !in stuck && LocalTls(id) !in stuck
    && ServerEntry(id) !in stuck && AgentEntry(id) !in stuck
  }

  predicate RefusedOrBridged(l: Local) {
    || (l.conn.agent == ARefused && l.conn.server == SEnded && l.down.source == Idle && l.up.source == Idle)
    || (&& (l.conn.agent == ABridging || l.conn.agent == AEnded) && (l.conn.server == SBridging || l.conn.server == SEnded)
        && l.down.source != Idle && l.down.sink != Unstarted && l.up.source != Idle && l.up.sink != Unstarted)
  }

  lemma PhasesAtRest(l: Local, opens: nat, acks: nat, naks: nat)
    requires LocalOk(l, opens, acks, naks) && opens == acks == naks == 0 && Unfailed(l)
    requires l.conn.agent != ADialing && l.conn.agent != ARegistered && l.conn.agent != ARefusing && l.conn.agent != AAccepted
    requires l.conn.server != SAccepted && l.conn.server != SRefused
    ensures RefusedOrBridged(l)
  {
  }

  lemma NotPinging(s: State, stuck: set<Obstacle>)
    requires RestingUnder(s, stuck) && Carrier(false) !in stuck
    ensures !s.pinging
  {
    if s.pinging {
      PingAtRest(s, stuck);
    }
  }

  lemma ConnAtRest(s: State, stuck: set<Obstacle>, id: Uuid)
    requires RelayOk(s) && RestingUnder(s, stuck) && Clear(s, stuck, id) && id in s.conns
    requires Unfailed(LocalOf(s, id))
    ensures RefusedOrBridged(LocalOf(s, id))
  {
    NotPinging(s, stuck);
    DownIsClear(s, stuck);
    UpIsClear(s, stuck);
    assert ConnOk(s, id);
    assert s.up.ctl == [];
    RestingPhases(s, stuck, id);
    hide RestingUnder;
    hide LocalOk;
    PhasesAtRest(LocalOf(s, id), InTransit(s.down, Open(id)), InTransit(s.up, Ack(id, true)), InTransit(s.up, Ack(id, false)));
  }

  /** A relay at rest has delivered everything: a connection that has not failed, and that nothing holds
      up, has - unless the agent refused it, and then nothing is left registered - every byte that reached
      either of its sockets written at the other one, and every closed direction shut down; when both
      directions are closed, it has left all maps at both ends. */
  lemma RestMeansDelivered(s: State, stuck: set<Obstacle>, id: Uuid)
    requires RelayOk(s) && RestingUnder(s, stuck) && Clear(s, stuck, id) && id in s.conns
    requires Unfailed(LocalOf(s, id))
    ensures var l := LocalOf(s, id);
      && l.conn.agent != ARefusing
      && if l.conn.agent == ARefused then l.conn == Conn(SEnded, ARefused, false, false, false)
         else && l.down.unread == [] && l.down.written == l.down.read && (l.down.eof ==> l.down.sink == Shut)
              && l.up.unread == [] && l.up.written == l.up.read && (l.up.eof ==> l.up.sink == Shut)
              && (l.down.eof && l.up.eof ==> l.conn == Conn(SEnded, AEnded, false, false, false))
  {
    ConnAtRest(s, stuck, id);
    assert ConnOk(s, id);
    var l := LocalOf(s, id);
    if l.conn.agent != ARefused {
      BridgedAtRest(s, stuck, id);
      hide RelayOk;
      hide RestingUnder;
      StillMeansDelivered(l.down, id);
      StillMeansDelivered(l.up, id);
      hide HalfOk;
      hide HalfStill;
    }
  }

  lemma BridgedAtRest(s: State, stuck: set<Obstacle>, id: Uuid)
    requires RelayOk(s) && RestingUnder(s, stuck) && Clear(s, stuck, id) && id in s.conns
    ensures var l := LocalOf(s, id);
      && HalfOk(l.down, [], id) && HalfOk(l.up, [], id) && HalfStill(l.down, true, true) && HalfStill(l.up, true, true)
      && (l.conn.agent == ABridging && l.down.receiver == Listening ==> !SinkOver(l.down))
      && (l.conn.agent == ABridging && l.down.receiver == Dropped ==> !SourceOver(l.up))
      && (l.conn.server == SBridging && l.up.receiver == Listening ==> !(SourceOver(l.down) && SinkOver(l.up)))
      && (l.conn.server == SBridging ==> l.up.receiver != Dropped)
  {
    hide HalfOk;
    hide HalfStill;
    hide LocalOk;
    NotPinging(s, stuck);
    DownIsClear(s, stuck);
    UpIsClear(s, stuck);
    assert ConnOk(s, id);
    assert OnWay(s.down, id) == [] && OnWay(s.up, id) == [];
    RestingSides(s, stuck, id);
    RestingPhases(s, stuck, id);
    hide RestingUnder;
  }

  // ---------------------------------------------------------------- main results, over runs

  predicate Failure(step: Step) {
    match step
    case Down(st) => st.AbortSource? || st.BreakSink?
    case Up(st) => st.AbortSource? || st.BreakSink?
    case Handshake(_, h) => h == TlsFail || h == Timeout || h == Vanish || h.IgnoreAnswer?
    case Heart(_) => false
  }

  lemma NothingBreaks(d: Dir, st: DirStep, id: Uuid)
    requires Enabled(d, st) && !st.AbortSource? && !st.BreakSink? && id in d.halves
    requires HalfOk(d.halves[id], OnWay(d, id), id)
    requires d.halves[id].source != Aborted && d.halves[id].sink != Broken
    ensures Apply(d, st).halves[id].source != Aborted && Apply(d, st).halves[id].sink != Broken
  {
    var h := d.halves[id];
    if st == Pop(id) {
      assert h.emitted[|h.consumed|] == h.queue[0];
      assert GoodFrame(h.queue[0], id);
    }
  }

  lemma DataKeepsUnfailed(s: State, step: Step, id: Uuid)
    requires KeysOk(s) && DirOk(s.down) && DirOk(s.up) && Possible(s, step) && (step.Down? || step.Up?) && !Failure(step) && id in s.conns
    requires Unfailed(LocalOf(s, id))
    ensures Unfailed(LocalOf(Next(s, step), id))
  {
    var d := if step.Down? then s.down else s.up;
    StepKeepsPhase(d, step.s, id);
    NothingBreaks(d, step.s, id);
  }

  lemma HandshakeKeepsUnfailed(l: Local, id: Uuid, h: Shake, opens: nat, acks: nat, naks: nat)
    requires LocalAllows(l, h) && !Failure(Handshake(id, h))
    requires h != Accept ==> Unfailed(l) && LocalOk(l, opens, acks, naks)
    ensures Unfailed(LocalNext(l, h))
  {
  }

  lemma StepKeepsUnfailed(s: State, step: Step, id: Uuid)
    requires RelayOk(s) && Possible(s, step) && !Failure(step)
    requires id in s.conns ==> Unfailed(LocalOf(s, id))
    ensures id in Next(s, step).conns ==> Unfailed(LocalOf(Next(s, step), id))
  {
    if step.Handshake? {
      ShakeKeepsUnfailed(s, step.id, step.h, id);
    } else if step.Heart? {
      PulseKeepsLocals(s, step.p, id);
    } else if id in s.conns {
      DataKeepsUnfailed(s, step, id);
    }
  }

  lemma ShakeKeepsUnfailed(s: State, id: Uuid, h: Shake, j: Uuid)
    requires ConnsOk(s) && Possible(s, Handshake(id, h)) && !Failure(Handshake(id, h))
    requires j in s.conns ==> Unfailed(LocalOf(s, j))
    ensures j in Next(s, Handshake(id, h)).conns ==> Unfailed(LocalOf(Next(s, Handshake(id, h)), j))
  {
    var l := LocalOf(s, id);
    var t := s.(down := DownTransfer(s.down, id, h), up := UpTransfer(s.up, l, id, h));
    TransferKeepsLocals(s, id, h, j);
    PutIsLocal(t, id, LocalNext(l, h), j);
    if j == id {
      if h != Accept {
        assert ConnOk(s, id);
      }
      HandshakeKeepsUnfailed(l, id, h, InTransit(s.down, Open(id)), InTransit(s.up, Ack(id, true)), InTransit(s.up, Ack(id, false)));
    }
  }

  lemma {:induction false} RunKeepsUnfailed(s: State, steps: seq<Step>, t: State, id: Uuid)
    requires RelayOk(s) && Run(s, steps, t) && (forall st :: st in steps ==> !Failure(st))
    requires id in s.conns ==> Unfailed(LocalOf(s, id))
    ensures id in t.conns ==> Unfailed(LocalOf(t, id))
    decreases |steps|
  {
    if steps != [] {
      StepKeepsUnfailed(s, steps[0], id);
      StepKeepsRelayOk(s, steps[0]);
      RunKeepsUnfailed(Next(s, steps[0]), steps[1..], t, id);
    }
  }

  lemma {:induction false} LeadsFromTheStart(steps: seq<Step>, t: State)
    requires Run(INITIAL, steps, t)
    ensures AnswersLead(t)
  {
    InitialIsOk();
    RunKeepsAnswersLead(INITIAL, steps, t);
  }

  lemma {:induction false} UnfailedFromTheStart(steps: seq<Step>, t: State, id: Uuid)
    requires Run(INITIAL, steps, t) && (forall st :: st in steps ==> !Failure(st)) && id in t.conns
    ensures Unfailed(LocalOf(t, id))
  {
    InitialIsOk();
    RunKeepsUnfailed(INITIAL, steps, t, id);
  }

  /** Data overtakes the answer only if the answer was ignored: while the server waits, nothing the agent
      sent on that stream can be queued for it or in the router's hand, unless its answer was taken and
      ignored. (`RelayStall.UnheardCanStall` shows that then it can.) */
  lemma AnswerIsHandledFirst(t: State, id: Uuid)
    requires Reachable(t) && id in t.conns && Waits(t.conns[id].server)
    ensures LocalOf(t, id).up.queue != [] || HandOf(t.up.hand, id) != [] ==> t.conns[id].server == SUnheard
  {
    if t.conns[id].server == SWaiting {
      var steps :| Run(INITIAL, steps, t);
      OkFromTheStart(steps, t);
      LeadsFromTheStart(steps, t);
      assert ConnOk(t, id);
      WaitingQueueIsEmpty(t, id);
    }
  }

  /** When a router or the agent's reader waits at rest, exactly, whatever obstacles there are: the agent's
      router waits if and only if it holds a frame for the full channel of a stream whose local socket or local
      TLS handshake is stuck; the server's if and only if it holds one for the full channel of a stream whose
      public socket is stuck, whose answer was ignored, or whose public writer has failed while its reading half
      goes on. The agent's reader waits with its heartbeat only when the outbound channel is full and the carrier
      to the server stuck (and then always will: `HeartbeatHoldsTheReader`). A direction whose reader is free
      has nothing on its carrier, and nothing to send unless that carrier is stuck. */
  lemma RestOrStall(t: State, stuck: set<Obstacle>)
    requires Reachable(t) && RestingUnder(t, stuck)
    ensures t.down.hand.Some? <==> exists id :: DownStall(t, stuck, id)
    ensures t.up.hand.Some? <==> exists id :: UpStall(t, stuck, id)
    ensures t.pinging ==> OutboundFull(t, stuck)
    ensures t.down.hand == None && !t.pinging ==> t.down.flight == [] && (Carrier(true) !in stuck ==> t.down.chan == [] && t.down.ctl == [])
    ensures t.up.hand == None ==> t.up.flight == [] && (Carrier(false) !in stuck ==> t.up.chan == [])
  {
    var steps :| Run(INITIAL, steps, t);
    OkFromTheStart(steps, t);
    LeadsFromTheStart(steps, t);
    hide RestingUnder;
    hide AnswersLead;
    if t.pinging {
      PingAtRest(t, stuck);
    } else if t.down.hand == None {
      DownIsClear(t, stuck);
    }
    if t.down.hand.Some? {
      AgentRouterWaits(t, stuck);
    }
    if t.up.hand.Some? {
      ServerRouterWaits(t, stuck);
    } else {
      UpIsClear(t, stuck);
    }
  }

  /** A router that waits at rest waits behind the stream whose frame it holds. */
  lemma WaitsForItsOwn(t: State, stuck: set<Obstacle>)
    requires Reachable(t) && RestingUnder(t, stuck)
    ensures t.up.hand.Some? ==> UpStall(t, stuck, t.up.hand.value.id)
  {
    hide RestingUnder;
    hide UpStall;
    RestOrStall(t, stuck);
    if t.up.hand.Some? {
      var id :| UpStall(t, stuck, id);
      StallHoldsItsFrame(t, stuck, id);
    }
  }

  lemma StallHoldsItsFrame(t: State, stuck: set<Obstacle>, id: Uuid)
    requires UpStall(t, stuck, id)
    ensures t.up.hand.Some? && t.up.hand.value.id == id
  {
  }

  /** The outbound channel being full while the carrier to the server takes nothing is all it takes: unless
      its router waits, the next heartbeat keeps the agent's reader from its carrier, and the relay is at rest
      again. */
  lemma HeartbeatHoldsTheReader(t: State, stuck: set<Obstacle>)
    requires RestingUnder(t, stuck) && Carrier(false) in stuck && |t.up.chan| >= CHANNEL_SLOTS
    requires t.down.hand == None && !t.pinging
    ensures Possible(t, Heart(Tick)) && Next(t, Heart(Tick)).pinging && RestingUnder(Next(t, Heart(Tick)), stuck)
  {
    var t' := Next(t, Heart(Tick));
    assert t' == t.(pinging := true);
    forall step | Internal(step) && !Hindered(stuck, step) ensures !Possible(t', step) {
      Blocked(t, stuck, step);
      if Possible(t', step) {
        PingingForbids(t, step);
      }
    }
  }

  lemma PingingForbids(t: State, step: Step)
    requires !t.pinging && |t.up.chan| >= CHANNEL_SLOTS && Internal(step) && Possible(t.(pinging := true), step)
    ensures Possible(t, step)
  {
  }

  /** The agent has refused the connection, or is about to. */
  predicate Refuses(s: State, id: Uuid) {
    id in s.conns && (s.conns[id].agent == ARefusing || s.conns[id].agent == ARefused)
  }

  lemma StepRefuses(s: State, step: Step, id: Uuid)
    requires Possible(s, step)
    ensures Refuses(Next(s, step), id) <==> Refuses(s, id) || step == Handshake(id, DialFail)
  {
    if step.Handshake? {
      var l := LocalOf(s, step.id);
      assert step.h != Accept ==> l.conn == s.conns[step.id];
      AgentMoves(l, step.h);
      hide LocalNext;
      hide LocalAllows;
      hide DownTransfer;
      hide UpTransfer;
    } else {
      hide Enabled;
      hide Apply;
    }
  }

  lemma AgentMoves(l: Local, h: Shake)
    requires LocalAllows(l, h)
    ensures var p, q := l.conn.agent, LocalNext(l, h).conn.agent;
      (q == ARefusing || q == ARefused) <==> (h != Accept && (p == ARefusing || p == ARefused)) || h == DialFail
    ensures h == Accept ==> l.conn.agent == ANone
  {
  }

  /** A connection is refused exactly if dialling its local target failed. */
  lemma {:induction false} RefusedIff(s: State, steps: seq<Step>, t: State, id: Uuid)
    requires Run(s, steps, t)
    ensures Refuses(t, id) <==> Refuses(s, id) || Handshake(id, DialFail) in steps
    decreases |steps|
  {
    hide Possible;
    hide Next;
    hide Refuses;
    if steps != [] {
      StepRefuses(s, steps[0], id);
      RefusedIff(Next(s, steps[0]), steps[1..], t, id);
      assert steps == [steps[0]] + steps[1..];
    }
  }

  /** Delivery despite obstacles of others: when a run without failures comes to rest and neither router
      waits and neither carrier is stuck, a connection that is not stuck itself has delivered both ways,
      unless dialling its local target failed; then it is registered nowhere. */
  lemma {:induction false} OthersAreDelivered(steps: seq<Step>, t: State, stuck: set<Obstacle>, id: Uuid)
    requires Run(INITIAL, steps, t) && (forall st :: st in steps ==> !Failure(st)) && RestingUnder(t, stuck)
    requires Clear(t, stuck, id) && id in t.conns
    ensures var l := LocalOf(t, id);
      if Handshake(id, DialFail) in steps then l.conn == Conn(SEnded, ARefused, false, false, false)
      else && l.down.written == Arrived(steps, id, true) && (l.down.eof ==> l.down.sink == Shut)
           && l.up.written == Arrived(steps, id, false) && (l.up.eof ==> l.up.sink == Shut)
           && (l.down.eof && l.up.eof ==> l.conn == Conn(SEnded, AEnded, false, false, false))
  {
    OkFromTheStart(steps, t);
    UnfailedFromTheStart(steps, t, id);
    RestMeansDelivered(t, stuck, id);
    RefusedIff(INITIAL, steps, t, id);
    assert LocalOf(t, id).conn == t.conns[id];
    ArrivalsFromTheStart(steps, t, id, true);
    ArrivalsFromTheStart(steps, t, id, false);
  }

  /** Delivery: when every socket accepts and every local connection attempt ends, a run without failures
      that comes to rest has delivered everything: every byte that reached either socket of a connection has
      been written at the other one, unless dialling its local target failed; then it is registered nowhere.
      A direction whose near peer has stopped sending has been shut down at the far end, and a connection
      closed both ways has left every map at both ends. The bounded channels never deadlock the relay. */
  lemma {:induction false} EverythingIsDelivered(steps: seq<Step>, t: State, id: Uuid)
    requires Run(INITIAL, steps, t) && (forall st :: st in steps ==> !Failure(st)) && Resting(t) && id in t.conns
    ensures var l := LocalOf(t, id);
      if Handshake(id, DialFail) in steps then l.conn == Conn(SEnded, ARefused, false, false, false)
      else && l.down.written == Arrived(steps, id, true) && (l.down.eof ==> l.down.sink == Shut)
           && l.up.written == Arrived(steps, id, false) && (l.up.eof ==> l.up.sink == Shut)
           && (l.down.eof && l.up.eof ==> l.conn == Conn(SEnded, AEnded, false, false, false))
  {
    NoRouterWaits(steps, t, {});
    OthersAreDelivered(steps, t, {}, id);
  }

  // ---------------------------------------------------------------- heartbeats

  /** How often the steps of a run include this one of the heartbeat. */
  function Beats(steps: seq<Step>, p: Pulse): nat {
    if steps == [] then 0 else (if steps[0] == Heart(p) then 1 else 0) + Beats(steps[1..], p)
  }

  /** The heartbeats that the timer has started and whose answer the agent has not taken yet. */
  function BeatsOut(s: State): nat {
    (if s.pinging then 1 else 0) + InTransit(s.up, Ping) + InTransit(s.down, Pong)
  }

  lemma DataKeepsBeats(s: State, step: Step)
    requires Possible(s, step) && (step.Down? || step.Up?)
    ensures BeatsOut(Next(s, step)) == BeatsOut(s)
  {
    hide InTransit;
    if step.Down? {
      StepKeepsControl(s.down, step.s, Pong);
    } else {
      StepKeepsControl(s.up, step.s, Ping);
    }
    hide Apply;
    hide Enabled;
  }

  lemma TransfersKeepBeats(s: State, id: Uuid, h: Shake, l: Local)
    requires TransferAllows(s, id, h)
    ensures InTransit(DownTransfer(s.down, id, h), Pong) == InTransit(s.down, Pong)
    ensures InTransit(UpTransfer(s.up, l, id, h), Ping) == InTransit(s.up, Ping)
  {
    CountSnoc(s.down.ctl, Open(id), Pong);
    CountSnoc(s.up.chan, Answer(l, id), Ping);
  }

  lemma HandshakeKeepsBeats(s: State, id: Uuid, h: Shake)
    requires Possible(s, Handshake(id, h))
    ensures BeatsOut(Next(s, Handshake(id, h))) == BeatsOut(s)
  {
    TransfersKeepBeats(s, id, h, LocalOf(s, id));
    hide DownTransfer;
    hide UpTransfer;
    hide TransferAllows;
    hide LocalNext;
    hide LocalAllows;
  }

  lemma PulseMovesBeats(s: State, p: Pulse)
    requires PulseAllows(s, p)
    ensures BeatsOut(Beaten(s, p)) + (if p == TakePong then 1 else 0) == BeatsOut(s) + (if p == Tick then 1 else 0)
  {
    CountSnoc(s.up.chan, Ping, Ping);
    CountSnoc(s.down.ctl, Pong, Pong);
  }

  lemma {:induction false} BeatsAreKept(s: State, steps: seq<Step>, t: State)
    requires Run(s, steps, t)
    ensures Beats(steps, Tick) + BeatsOut(s) == Beats(steps, TakePong) + BeatsOut(t)
    decreases |steps|
  {
    hide BeatsOut;
    if steps != [] {
      match steps[0] {
        case Handshake(id, h) => HandshakeKeepsBeats(s, id, h);
        case Heart(p) => PulseMovesBeats(s, p);
        case _ => DataKeepsBeats(s, steps[0]);
      }
      BeatsAreKept(Next(s, steps[0]), steps[1..], t);
    }
  }

  /** No heartbeat is lost or invented: in every run those of the timer are those answered, those the agent still
      waits to send, the pings on their way and the pongs on theirs; and a run without failures that comes to rest
      with every socket accepting has answered every one. */
  lemma {:induction false} HeartbeatsAreAnswered(steps: seq<Step>, t: State)
    requires Run(INITIAL, steps, t)
    ensures Beats(steps, Tick)
         == Beats(steps, TakePong) + (if t.pinging then 1 else 0) + InTransit(t.up, Ping) + InTransit(t.down, Pong)
    ensures (forall st :: st in steps ==> !Failure(st)) && Resting(t) ==> Beats(steps, Tick) == Beats(steps, TakePong)
  {
    BeatsAreKept(INITIAL, steps, t);
    hide InTransit;
    assert BeatsOut(INITIAL) == 0 by {
      NoneInTransit(NEW_DIR, Ping);
      NoneInTransit(NEW_DIR, Pong);
    }
    if (forall st :: st in steps ==> !Failure(st)) && Resting(t) {
      NoRouterWaits(steps, t, {});
      OkFromTheStart(steps, t);
      ClearAtRest(t);
      NoneInTransit(t.up, Ping);
      NoneInTransit(t.down, Pong);
    }
  }

  lemma ClearAtRest(t: State)
    requires RelayOk(t) && Resting(t) && t.down.hand == None && t.up.hand == None
    ensures !t.pinging && t.down.flight == [] && t.down.chan == [] && t.down.ctl == []
    ensures t.up.flight == [] && t.up.chan == [] && t.up.ctl == []
  {
    NotPinging(t, {});
    hide RestingUnder;
    DownIsClear(t, {});
    UpIsClear(t, {});
  }

  /** Without failures no router waits at rest, even if the carriers do. */
  lemma {:induction false} NoRouterWaits(steps: seq<Step>, t: State, stuck: set<Obstacle>)
    requires Run(INITIAL, steps, t) && (forall st :: st in steps ==> !Failure(st)) && RestingUnder(t, stuck)
    requires forall o :: o in stuck ==> o.Carrier?
    ensures t.down.hand == None && t.up.hand == None
  {
    hide RestingUnder;
    hide RelayOk;
    hide AnswersLead;
    hide Failure;
    OkFromTheStart(steps, t);
    LeadsFromTheStart(steps, t);
    if t.down.hand.Some? {
      AgentRouterWaits(t, stuck);
    }
    if t.up.hand.Some? {
      ServerRouterWaits(t, stuck);
      UnfailedFromTheStart(steps, t, t.up.hand.value.id);
    }
  }
}
