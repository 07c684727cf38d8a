/** What every step of the server keeps, and what follows for every run. */
module GatewaySafety {
  import opened Bytes
  import opened Protocol
  import opened Sums
  import opened Gateway

  // ---------------------------------------------------------------- steps and their parts

  datatype Part = NoPart | MovePart(id: Uuid, m: Move) | BirthPart(id: Uuid, c: Conn)

  /** What a step does to connections: one move, one birth or nothing. */
  function PartOf(s: Server, step: Step): Part
    requires Possible(s, step)
  {
    match step
    case Admit(id, tunnel, peer, ticket) => BirthPart(id, NewConn(tunnel, peer, 0, ticket))
    case Task(id, m) => MovePart(id, m)
    case Cleanup(id) => MovePart(id, Purge(s.now))
    case Remove(call) => if s.calls[call].id in s.pending then MovePart(s.calls[call].id, Consume(s.calls[call].ack)) else NoPart
    case Answer(call) => MovePart(s.calls[call].id, Deliver(s.calls[call].ack.accepted))
    case AdmitUdp(lid, id, peer, ticket, _) => BirthPart(id, NewConn(s.listeners[lid].tunnel, peer, lid, ticket))
    case Enlist(lid) => MovePart(s.listeners[lid].busy.value, List)
    case Evict(lid, peer) => MovePart(s.listeners[lid].sessions[peer].id, Unlist(Evicted))
    case PassOn(_, id, bytes) => MovePart(id, Hand(bytes))
    case Lose(lid, peer) => MovePart(s.listeners[lid].sessions[peer].id, Forget)
    case HaltSession(lid, peer) => MovePart(s.listeners[lid].sessions[peer].id, Unlist(Stopped))
    case _ => NoPart
  }

  predicate PartAllowed(s: Server, p: Part) {
    match p
    case NoPart => true
    case MovePart(id, m) => CanMove(s, id, m)
    case BirthPart(id, c) => id !in s.conns && SourceAllowed(c.tunnel, c.peer) && c == NewConn(c.tunnel, c.peer, c.listener, c.ticket)
  }

  function PartNext(s: Server, p: Part): Server
    requires PartAllowed(s, p)
  {
    match p
    case NoPart => s
    case MovePart(id, m) => Moved(s, id, m)
    case BirthPart(id, c) => Born(s, id, c)
  }

  /** Everything but the clock, the acknowledgement callers and the listener tasks. */
  function Core(s: Server): Server {
    s.(now := 0, calls := map[], listeners := map[])
  }

  lemma StepIsPart(s: Server, step: Step)
    requires Possible(s, step)
    ensures PartAllowed(s, PartOf(s, step))
    ensures Core(Next(s, step)) == Core(PartNext(s, PartOf(s, step)))
  {
    hide MoveNext;
    hide RowsOf;
    hide UpBytes;
    hide DownBytes;
    hide PutLocal;
  }

  lemma MovedLocals(s: Server, id: Uuid, m: Move, j: Uuid)
    requires CanMove(s, id, m) && j in s.conns
    ensures Moved(s, id, m).conns.Keys == s.conns.Keys
    ensures LocalOf(Moved(s, id, m), j) == if j == id then MoveNext(LocalOf(s, id), m) else LocalOf(s, j)
  {
    hide MoveNext;
    hide MoveAllowed;
    hide RowsOf;
  }

  // ---------------------------------------------------------------- connections

  predicate KeysOk(s: Server) {
    s.pending.Keys <= s.conns.Keys && s.streams <= s.conns.Keys && s.active.Keys <= s.conns.Keys
  }

  ghost predicate ConnsOk(s: Server) {
    KeysOk(s) && forall id :: id in s.conns ==> LocalOk(LocalOf(s, id))
  }

  /** The premises under which an acknowledgement's own steps are right. */
  predicate PartFits(s: Server, p: Part) {
    p.MovePart? && p.id in s.conns ==>
      && (p.m.Consume? ==> AckFits(s.conns[p.id], p.m.ack))
      && (p.m.Deliver? ==> |s.conns[p.id].acks| == 1 && s.conns[p.id].acks[0].accepted == p.m.accepted)
  }

  lemma MovedKeepsConns(s: Server, id: Uuid, m: Move)
    requires ConnsOk(s) && CanMove(s, id, m) && PartFits(s, MovePart(id, m))
    ensures ConnsOk(Moved(s, id, m))
  {
    hide LocalOk;
    hide MoveNext;
    hide MoveAllowed;
    hide RowsOf;
    var t := Moved(s, id, m);
    MoveKeepsLocalOk(LocalOf(s, id), m);
    MovedLocals(s, id, m, id);
    MovedKeys(s, id, m);
    forall j | j in s.conns ensures LocalOk(LocalOf(t, j)) {
      hide Moved;
      MovedLocals(s, id, m, j);
    }
  }

  lemma MovedKeys(s: Server, id: Uuid, m: Move)
    requires KeysOk(s) && CanMove(s, id, m)
    ensures KeysOk(Moved(s, id, m))
  {
    hide MoveNext;
    hide MoveAllowed;
    hide RowsOf;
  }

  lemma NewIsOk(c: Conn)
    requires SourceAllowed(c.tunnel, c.peer) && c == NewConn(c.tunnel, c.peer, c.listener, c.ticket)
    ensures LocalOk(Local(c, None, false, None))
  {
  }

  lemma BornKeepsConns(s: Server, id: Uuid, c: Conn)
    requires ConnsOk(s) && PartAllowed(s, BirthPart(id, c))
    ensures ConnsOk(Born(s, id, c))
  {
    var t := Born(s, id, c);
    NewIsOk(c);
    assert LocalOf(t, id) == Local(c, None, false, None);
    forall j | j in s.conns ensures LocalOk(LocalOf(t, j)) {
      assert LocalOf(t, j) == LocalOf(s, j);
    }
    hide LocalOk;
  }

  lemma CoreConns(s: Server, t: Server)
    requires ConnsOk(s) && Core(s) == Core(t)
    ensures ConnsOk(t)
  {
    forall id | id in t.conns ensures LocalOk(LocalOf(t, id)) {
      assert LocalOf(t, id) == LocalOf(s, id);
    }
    hide LocalOk;
  }

  lemma StepKeepsConns(s: Server, step: Step)
    requires ConnsOk(s) && Possible(s, step) && PartFits(s, PartOf(s, step))
    ensures ConnsOk(Next(s, step))
  {
    StepIsPart(s, step);
    var p := PartOf(s, step);
    match p {
      case NoPart =>
      case MovePart(id, m) => MovedKeepsConns(s, id, m);
      case BirthPart(id, c) => BornKeepsConns(s, id, c);
    }
    CoreConns(PartNext(s, p), Next(s, step));
  }

  // ---------------------------------------------------------------- acknowledgement callers

  predicate CallOk(s: Server, c: Call) {
    && c.id in s.conns && c.ack.at <= s.now
    && s.conns[c.id].phase != Admitted && s.conns[c.id].phase != Streamed
    && AckFits(s.conns[c.id], c.ack)
    && (c.stage == Removed ==> s.conns[c.id].acks == [c.ack])
  }

  ghost predicate CallsOk(s: Server) {
    forall k :: k in s.calls ==> CallOk(s, s.calls[k])
  }

  /** What a move never changes: identity, and what has been settled. */
  predicate Settled(c: Conn, d: Conn) {
    && d.tunnel == c.tunnel && d.peer == c.peer && d.listener == c.listener && d.ticket == c.ticket
    && (c.phase != Admitted && c.phase != Streamed ==>
          d.expires == c.expires && d.phase != Admitted && d.phase != Streamed)
  }

  lemma MoveSettles(l: Local, m: Move)
    requires MoveAllowed(l, m)
    ensures Settled(l.conn, MoveNext(l, m).conn)
    ensures MoveNext(l, m).conn.acks == l.conn.acks + (if m.Consume? then [m.ack] else [])
  {
    PhaseField(l, m);
    FixedFields(l, m);
    TicketFields(l, m);
    hide MoveNext;
  }

  lemma StepSettles(s: Server, step: Step, id: Uuid)
    requires Possible(s, step) && id in s.conns
    ensures id in Next(s, step).conns && Settled(s.conns[id], Next(s, step).conns[id])
    ensures Next(s, step).conns[id].acks
         == s.conns[id].acks + (if PartOf(s, step).MovePart? && PartOf(s, step).id == id && PartOf(s, step).m.Consume?
                                then [PartOf(s, step).m.ack] else [])
  {
    StepIsPart(s, step);
    var p := PartOf(s, step);
    if p.MovePart? {
      MovedLocals(s, p.id, p.m, id);
      if p.id == id {
        MoveSettles(LocalOf(s, id), p.m);
      }
    }
    hide MoveNext;
    hide MoveAllowed;
    hide RowsOf;
    hide Possible;
    hide Next;
    hide PartOf;
    assert Next(s, step).conns == Core(Next(s, step)).conns;
    assert PartNext(s, p).conns == Core(PartNext(s, p)).conns;
  }

  /** Callers past the check have what they checked, whatever happened since. */
  lemma CallsFit(s: Server, step: Step)
    requires CallsOk(s) && Possible(s, step)
    ensures PartFits(s, PartOf(s, step))
  {
  }

  lemma OldCallStaysOk(s: Server, step: Step, c: Call)
    requires ConnsOk(s) && Possible(s, step) && CallOk(s, c)
    ensures CallOk(Next(s, step), c)
  {
    hide Next;
    hide LocalOk;
    StepSettles(s, step, c.id);
    ClockRuns(s, step);
    if c.stage == Removed {
      NoneLeftToConsume(s, c.id);
      StepIsPart(s, step);
    }
    hide PartOf;
    hide Possible;
  }

  lemma NoneLeftToConsume(s: Server, id: Uuid)
    requires ConnsOk(s) && id in s.conns && s.conns[id].acks != []
    ensures id !in s.pending && forall ack :: !CanMove(s, id, Consume(ack))
  {
    hide LocalOk;
    if id in s.pending {
      PendingIsFresh(LocalOf(s, id));
    }
  }

  lemma ClockRuns(s: Server, step: Step)
    requires Possible(s, step)
    ensures s.now <= Next(s, step).now
    ensures Next(s, step).ttl == s.ttl && Next(s, step).udpTimeout == s.udpTimeout
  {
    hide MoveNext;
    hide RowsOf;
  }

  lemma PendingIsFresh(l: Local)
    requires LocalOk(l) && l.pend.Some?
    ensures l.conn.acks == [] && l.conn.phase != Admitted && l.conn.phase != Streamed
    ensures l.pend.value == Pending(l.conn.tunnel.agent, TicketHash(l.conn.ticket), l.conn.expires)
  {
    hide KindOk;
    hide BytesOk;
  }

  lemma CheckedIsOk(s: Server, id: Uuid, ack: Ack)
    requires ConnsOk(s) && id in s.pending && TicketMatches(s.pending[id], ack.agent, ack.ticket, s.now) && ack.at == s.now
    ensures CallOk(s, Call(id, ack, Checked))
  {
    hide LocalOk;
    assert id in s.conns;
    PendingIsFresh(LocalOf(s, id));
  }

  lemma RemovedIsOk(s: Server, call: nat)
    requires ConnsOk(s) && CallsOk(s) && Possible(s, Remove(call)) && s.calls[call].id in s.pending
    ensures CallOk(Next(s, Remove(call)), s.calls[call].(stage := Removed))
  {
    hide LocalOk;
    hide Next;
    var c := s.calls[call];
    assert CallOk(s, c);
    assert PartOf(s, Remove(call)) == MovePart(c.id, Consume(c.ack));
    PendingIsFresh(LocalOf(s, c.id));
    hide Possible;
    hide PartOf;
    StepSettles(s, Remove(call), c.id);
    ClockRuns(s, Remove(call));
  }

  /** Which callers a step leaves: old ones, one that has just checked or one that has just removed. */
  lemma CallsAfter(s: Server, step: Step, k: nat)
    requires Possible(s, step) && k in Next(s, step).calls
    ensures var c := Next(s, step).calls[k];
      || (k in s.calls && c == s.calls[k])
      || (step.Check? && c == Call(step.id, Ack(step.agent, step.ticket, step.accepted, s.now), Checked))
      || (step == Remove(k) && s.calls[k].id in s.pending && c == s.calls[k].(stage := Removed))
  {
    hide MoveNext;
    hide RowsOf;
  }

  lemma StepKeepsCalls(s: Server, step: Step)
    requires ConnsOk(s) && CallsOk(s) && Possible(s, step)
    ensures CallsOk(Next(s, step))
  {
    forall k | k in Next(s, step).calls ensures CallOk(Next(s, step), Next(s, step).calls[k]) {
      CallsAfter(s, step, k);
      var c := Next(s, step).calls[k];
      if k in s.calls && c == s.calls[k] {
        OldCallStaysOk(s, step, c);
      } else if step.Check? {
        CheckedIsOk(s, step.id, c.ack);
        OldCallStaysOk(s, step, c);
      } else {
        RemovedIsOk(s, k);
      }
      hide Next;
      hide CallOk;
    }
    hide Next;
  }
}
