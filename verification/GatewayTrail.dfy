/** What a connection's record says about the run that led to it: the steps of the run themselves show
    the source check, the open message, the acknowledgements and every byte counted. */
module GatewayTrail {
  import opened Bytes
  import opened Protocol
  import opened Gateway
  import opened GatewaySafety
  import opened GatewayRuns

  datatype Event = Allowed(tunnel: Tunnel, peer: Peer) | Asked(agent: Uuid, ticket: nat) | Acknowledged(ack: Ack)

  /** What one step is to connection `id`. */
  function EventOf(s: Server, step: Step, id: Uuid): seq<Event>
    requires Possible(s, step)
  {
    match step
    case Admit(j, tunnel, peer, _) => if j == id then [Allowed(tunnel, peer)] else []
    case AdmitUdp(lid, j, peer, _, _) => if j == id then [Allowed(s.listeners[lid].tunnel, peer)] else []
    case Task(j, m) => if j == id && m == SendOpen(true) then [Asked(s.conns[id].tunnel.agent, s.conns[id].ticket)] else []
    case Remove(call) =>
      if s.calls[call].id == id && id in s.pending then [Acknowledged(s.calls[call].ack)] else []
    case _ => []
  }

  ghost function Events(s: Server, steps: seq<Step>, t: Server, id: Uuid): seq<Event>
    requires Run(s, steps, t)
    decreases |steps|
  {
    if steps == [] then [] else EventOf(s, steps[0], id) + Events(Next(s, steps[0]), steps[1..], t, id)
  }

  /** `asked` and `acks` of a record, as events after the admission. */
  predicate Tells(rest: seq<Event>, c: Conn) {
    var asked := Asked(c.tunnel.agent, c.ticket);
    if c.acks == [] then rest == (if c.asked then [asked] else [])
    else if |c.acks| == 1 then
      if c.asked then rest == [asked, Acknowledged(c.acks[0])] || rest == [Acknowledged(c.acks[0]), asked]
      else rest == [Acknowledged(c.acks[0])]
    else false
  }

  /** Before it is admitted nothing happens to a connection; then `past` is its admission and the rest. */
  predicate TrailOk(s: Server, id: Uuid, past: seq<Event>) {
    if id in s.conns then
      var c := s.conns[id];
      past != [] && past[0] == Allowed(c.tunnel, c.peer) && Tells(past[1..], c)
    else past == []
  }

  lemma AskedOnce(l: Local)
    requires LocalOk(l) && l.conn.phase == Pended
    ensures !l.conn.asked
  {
  }

  function EventOfMove(c: Conn, m: Move): seq<Event> {
    if m == SendOpen(true) then [Asked(c.tunnel.agent, c.ticket)]
    else if m.Consume? then [Acknowledged(m.ack)]
    else []
  }

  lemma EventIsOfMove(s: Server, step: Step, id: Uuid)
    requires Possible(s, step) && id in s.conns
    ensures var p := PartOf(s, step);
      EventOf(s, step, id) == if p.MovePart? && p.id == id then EventOfMove(s.conns[id], p.m) else []
  {
    hide MoveAllowed;
  }

  lemma MoveTells(l: Local, m: Move, rest: seq<Event>)
    requires MoveAllowed(l, m) && LocalOk(l) && Tells(rest, l.conn)
    ensures Tells(rest + EventOfMove(l.conn, m), MoveNext(l, m).conn)
  {
    TicketFields(l, m);
    FixedFields(l, m);
    if m == SendOpen(true) {
      AskedOnce(l);
    }
    if m.Consume? {
      PendingIsFresh(l);
    }
    hide MoveNext;
    hide LocalOk;
    hide MoveAllowed;
    assert rest + [] == rest;
  }

  lemma StepTells(s: Server, step: Step, id: Uuid, rest: seq<Event>)
    requires ConnsOk(s) && Possible(s, step) && id in s.conns && Tells(rest, s.conns[id])
    ensures id in Next(s, step).conns && Tells(rest + EventOf(s, step, id), Next(s, step).conns[id])
  {
    hide Next;
    hide Possible;
    hide PartOf;
    hide EventOf;
    hide LocalOk;
    hide MoveAllowed;
    hide MoveNext;
    hide Tells;
    EventIsOfMove(s, step, id);
    StepOnConn(s, step, id);
    assert Next(s, step).conns[id] == LocalOf(Next(s, step), id).conn;
    var p := PartOf(s, step);
    if p.MovePart? && p.id == id {
      MoveTells(LocalOf(s, id), p.m, rest);
    } else {
      assert rest + [] == rest;
    }
  }

  lemma StepKeepsTrail(s: Server, step: Step, id: Uuid, past: seq<Event>)
    requires ConnsOk(s) && Possible(s, step) && TrailOk(s, id, past)
    ensures TrailOk(Next(s, step), id, past + EventOf(s, step, id))
  {
    hide ConnsOk;
    hide LocalOk;
    if id in s.conns {
      StepTells(s, step, id, past[1..]);
      StepSettles(s, step, id);
      var more := EventOf(s, step, id);
      hide Next;
      hide EventOf;
      hide PartOf;
      hide Possible;
      assert (past + more)[1..] == past[1..] + more;
    } else {
      BirthIsTold(s, step, id);
      assert id in Next(s, step).conns ==> [Allowed(Next(s, step).conns[id].tunnel, Next(s, step).conns[id].peer)][1..] == [];
      hide Next;
      hide EventOf;
      hide Possible;
      assert past + EventOf(s, step, id) == EventOf(s, step, id);
    }
  }

  lemma BirthIsTold(s: Server, step: Step, id: Uuid)
    requires ConnsOk(s) && Possible(s, step) && id !in s.conns
    ensures var t := Next(s, step);
      if id in t.conns
      then EventOf(s, step, id) == [Allowed(t.conns[id].tunnel, t.conns[id].peer)] && !t.conns[id].asked && t.conns[id].acks == []
      else EventOf(s, step, id) == []
  {
    hide LocalOk;
    hide MoveNext;
    hide RowsOf;
    StepIsPart(s, step);
    if id in Next(s, step).conns {
      GatewayUdp.StepBirths(s, step, id);
    } else {
      assert id !in PartNext(s, PartOf(s, step)).conns;
    }
  }

  lemma {:induction false} RunKeepsTrail(s: Server, steps: seq<Step>, t: Server, id: Uuid, past: seq<Event>)
    requires ServerOk(s) && Run(s, steps, t) && TrailOk(s, id, past)
    ensures TrailOk(t, id, past + Events(s, steps, t, id))
    decreases |steps|
  {
    hide ServerOk;
    hide TrailOk;
    hide Next;
    hide Possible;
    hide EventOf;
    if steps == [] {
      assert past + [] == past;
    } else {
      var m, more := Next(s, steps[0]), EventOf(s, steps[0], id);
      StepKeepsServerOk(s, steps[0]);
      assert ConnsOk(s) by {
        ServerConns(s);
      }
      StepKeepsTrail(s, steps[0], id, past);
      RunKeepsTrail(m, steps[1..], t, id, past + more);
      assert past + more + Events(m, steps[1..], t, id) == past + (more + Events(m, steps[1..], t, id));
    }
  }

  lemma {:induction false} TrailFromTheStart(ttl: nat, udpTimeout: nat, steps: seq<Step>, t: Server, id: Uuid)
    requires Run(Initial(ttl, udpTimeout), steps, t)
    ensures TrailOk(t, id, Events(Initial(ttl, udpTimeout), steps, t, id))
    ensures id in t.conns ==> LocalOk(LocalOf(t, id))
  {
    hide TrailOk;
    var s := Initial(ttl, udpTimeout);
    InitialIsOk(ttl, udpTimeout);
    assert TrailOk(s, id, []) by {
      NothingYet(s, id);
    }
    hide Initial;
    hide LocalOk;
    RunKeepsTrail(s, steps, t, id, []);
    assert [] + Events(s, steps, t, id) == Events(s, steps, t, id);
    assert Reachable(t);
    ReachableLocal(t, id);
  }

  lemma NothingYet(s: Server, id: Uuid)
    requires id !in s.conns
    ensures TrailOk(s, id, [])
  {
  }

  /** Provenance over runs: the run that led to an active connection contains, for it, exactly one allowed
      source check, of the tunnel it is active for; exactly one open message, to that tunnel's agent; and
      exactly one successful acknowledgement: accepting, from that agent and with the ticket of the open
      message. */
  lemma {:induction false} ActiveTrail(ttl: nat, udpTimeout: nat, steps: seq<Step>, t: Server, id: Uuid)
    requires Run(Initial(ttl, udpTimeout), steps, t) && id in t.active
    ensures id in t.conns
    ensures t.conns[id].peer.ip in t.conns[id].tunnel.sources
    ensures var c, past := t.conns[id], Events(Initial(ttl, udpTimeout), steps, t, id);
      var allowed, asked := Allowed(c.tunnel, c.peer), Asked(c.tunnel.agent, c.ticket);
      exists at: nat :: at < c.expires &&
        var ack := Acknowledged(Ack(c.tunnel.agent, c.ticket, true, at));
        past == [allowed, asked, ack] || past == [allowed, ack, asked]
  {
    TrailFromTheStart(ttl, udpTimeout, steps, t, id);
    assert Reachable(t);
    ActiveProvenance(t, id);
    hide LocalOk;
    hide Reachable;
    var c, past := t.conns[id], Events(Initial(ttl, udpTimeout), steps, t, id);
    assert past == [past[0]] + past[1..];
    assert c.acks[0] == Ack(c.tunnel.agent, c.ticket, true, c.acks[0].at);
    assert c.acks[0].at < c.expires;
  }

  /** Single use: over a whole run at most one acknowledgement of a connection succeeds, whoever else
      tries and whenever, and it came from the right agent with the right ticket, unexpired when checked. */
  lemma {:induction false} TicketsAreSingleUse(ttl: nat, udpTimeout: nat, steps: seq<Step>, t: Server, id: Uuid)
    requires Run(Initial(ttl, udpTimeout), steps, t)
    ensures var past := Events(Initial(ttl, udpTimeout), steps, t, id);
      && (forall i, j :: 0 <= i < |past| && 0 <= j < |past| && past[i].Acknowledged? && past[j].Acknowledged? ==> i == j)
      && (forall e :: e in past && e.Acknowledged? ==> id in t.conns && e.ack.agent == t.conns[id].tunnel.agent
                                                       && e.ack.ticket == t.conns[id].ticket && e.ack.at < t.conns[id].expires)
  {
    TrailFromTheStart(ttl, udpTimeout, steps, t, id);
    var past := Events(Initial(ttl, udpTimeout), steps, t, id);
    if id in t.conns {
      AcksFit(LocalOf(t, id));
      assert past == [past[0]] + past[1..];
    }
    hide LocalOk;
  }

  lemma AcksFit(l: Local)
    requires LocalOk(l)
    ensures forall a :: a in l.conn.acks ==> AckFits(l.conn, a)
  {
  }
}
