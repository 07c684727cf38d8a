/** The guarantees of the server's connection handling over whole runs. */
module GatewayRuns {
  import opened Bytes
  import opened Protocol
  import opened Sums
  import opened Gateway
  import opened GatewaySafety
  import opened GatewayUdp
  import opened GatewayTotals

  ghost predicate ServerOk(s: Server) {
    ConnsOk(s) && CallsOk(s) && TablesOk(s) && SumsOk(s) && HistoryOk(s) && AllReplies(s)
  }

  /** Every step of every task keeps the whole invariant. */
  lemma StepKeepsServerOk(s: Server, step: Step)
    requires ServerOk(s) && Possible(s, step)
    ensures ServerOk(Next(s, step))
  {
    hide ConnsOk;
    hide CallsOk;
    hide TablesOk;
    hide SumsOk;
    hide HistoryOk;
    hide AllReplies;
    hide Next;
    hide Possible;
    CallsFit(s, step);
    StepKeepsConns(s, step);
    StepKeepsCalls(s, step);
    StepKeepsTables(s, step);
    StepKeepsSums(s, step);
    StepKeepsHistory(s, step);
    StepKeepsReplies(s, step);
  }

  lemma ServerConns(s: Server)
    requires ServerOk(s)
    ensures ConnsOk(s) && CallsOk(s)
  {
    hide ConnsOk;
    hide CallsOk;
  }

  lemma ServerTables(s: Server)
    requires ServerOk(s)
    ensures TablesOk(s)
  {
    hide TablesOk;
  }

  ghost predicate Run(s: Server, steps: seq<Step>, t: Server)
    decreases |steps|
  {
    if steps == [] then s == t
    else Possible(s, steps[0]) && Run(Next(s, steps[0]), steps[1..], t)
  }

  ghost predicate Reachable(t: Server) {
    exists ttl: nat, udpTimeout: nat, steps :: Run(Initial(ttl, udpTimeout), steps, t)
  }

  lemma InitialIsOk(ttl: nat, udpTimeout: nat)
    ensures ServerOk(Initial(ttl, udpTimeout))
  {
    var s := Initial(ttl, udpTimeout);
    assert Over(s.conns, UpOf) == map[] && Over(s.conns, DownOf) == map[] && Over(s.conns, GaugeOf) == map[];
  }

  lemma {:induction false} RunKeepsServerOk(s: Server, steps: seq<Step>, t: Server)
    requires ServerOk(s) && Run(s, steps, t)
    ensures ServerOk(t)
    decreases |steps|
  {
    hide ServerOk;
    hide Possible;
    hide Next;
    if steps != [] {
      StepKeepsServerOk(s, steps[0]);
      RunKeepsServerOk(Next(s, steps[0]), steps[1..], t);
    }
  }

  lemma ReachableIsOk(t: Server)
    requires Reachable(t)
    ensures ServerOk(t)
  {
    hide ServerOk;
    var ttl: nat, udpTimeout: nat, steps :| Run(Initial(ttl, udpTimeout), steps, t);
    InitialIsOk(ttl, udpTimeout);
    RunKeepsServerOk(Initial(ttl, udpTimeout), steps, t);
  }

  lemma ReachableLocal(t: Server, id: Uuid)
    requires Reachable(t)
    ensures KeysOk(t)
    ensures id in t.conns ==> LocalOk(LocalOf(t, id))
  {
    hide LocalOk;
    ReachableIsOk(t);
  }

  // ---------------------------------------------------------------- maps and phases

  /** In every reachable state the pending tickets belong to registered streams, and no connection is
      both pending and active. */
  lemma PendingWithinStreams(t: Server)
    requires Reachable(t)
    ensures t.pending.Keys <= t.streams
    ensures t.pending.Keys !! t.active.Keys
  {
    forall id | id in t.pending.Keys ensures id in t.streams && id !in t.active.Keys {
      ReachableLocal(t, id);
    }
  }

  /** Provenance: a connection in `active` - TCP, Web or UDP - passed the source check of the tunnel it is
      active for, the open message with its ticket was sent to that tunnel's agent, and exactly one
      acknowledgement succeeded: accepting, from that agent, with that ticket, checked before expiry. */
  lemma ActiveProvenance(t: Server, id: Uuid)
    requires Reachable(t) && id in t.active
    ensures id in t.conns
    ensures var c, a := t.conns[id], t.active[id];
      && a.tunnel == c.tunnel.id && a.kind == c.tunnel.kind && a.peer == c.peer
      && c.peer.ip in c.tunnel.sources
      && c.asked
      && |c.acks| == 1 && c.acks[0].accepted
      && c.acks[0].agent == c.tunnel.agent && c.acks[0].ticket == c.ticket && c.acks[0].at < c.expires
  {
    ReachableLocal(t, id);
  }

  /** The phases, numbered so that every task only moves forward. */
  function Rank(p: Phase): nat {
    match p
    case Admitted => 0
    case Streamed => 1
    case Pended => 2
    case Waiting => 3
    case Abandoned => 4
    case Dropped => 4
    case Withdrawing => 4
    case Unstreaming => 5
    case Refused => 6
    case Accepted => 4
    case Counted => 5
    case Opened => 6
    case Listed => 7
    case Forgotten => 8
    case Closing(_) => 8
    case Departing(_) => 9
    case Uncounting => 10
    case Closed(_) => 11
  }

  lemma MoveForward(l: Local, m: Move)
    requires MoveAllowed(l, m)
    ensures Rank(MoveNext(l, m).conn.phase) >= Rank(l.conn.phase)
    ensures Rank(MoveNext(l, m).conn.phase) == Rank(l.conn.phase) ==> MoveNext(l, m).conn.phase == l.conn.phase
    ensures Done(l.conn.phase) || l.conn.phase.Closed? || l.conn.phase == Forgotten || l.conn.phase == Dropped ==> MoveNext(l, m).conn.phase == l.conn.phase
    ensures Ended(l.conn.phase) ==> MoveNext(l, m).streamed == l.streamed && MoveNext(l, m).act == l.act
  {
    PhaseField(l, m);
    MapFields(l, m);
    hide MoveNext;
  }

  /** The task is over. */
  predicate Ended(p: Phase) {
    Done(p) || p.Closed? || p == Forgotten || p == Dropped
  }

  /** What a step does to one known connection: its own move, or nothing at all. */
  lemma StepOnConn(s: Server, step: Step, id: Uuid)
    requires Possible(s, step) && id in s.conns
    ensures id in Next(s, step).conns
    ensures var p := PartOf(s, step);
      LocalOf(Next(s, step), id)
      == if p.MovePart? && p.id == id && MoveAllowed(LocalOf(s, id), p.m) then MoveNext(LocalOf(s, id), p.m) else LocalOf(s, id)
    ensures var p := PartOf(s, step); p.MovePart? && p.id == id ==> MoveAllowed(LocalOf(s, id), p.m)
  {
    StepIsPart(s, step);
    var p, t := PartOf(s, step), Next(s, step);
    hide Next;
    hide Possible;
    hide PartOf;
    hide MoveNext;
    if p.MovePart? {
      MovedLocals(s, p.id, p.m, id);
    }
    hide MoveAllowed;
    hide Moved;
    var c, d := Core(t), Core(PartNext(s, p));
    assert c.conns == t.conns && c.pending == t.pending && c.streams == t.streams && c.active == t.active;
    assert d.conns == PartNext(s, p).conns && d.pending == PartNext(s, p).pending
      && d.streams == PartNext(s, p).streams && d.active == PartNext(s, p).active;
  }

  /** Isolation: a step changes the entries of at most one connection; an ended connection's included,
      all others keep their task state and their entries in every map. */
  lemma StepTouchesOne(s: Server, step: Step, id: Uuid)
    requires Possible(s, step) && id in s.conns
    requires PartOf(s, step).MovePart? ==> PartOf(s, step).id != id
    ensures id in Next(s, step).conns && LocalOf(Next(s, step), id) == LocalOf(s, id)
  {
    StepOnConn(s, step, id);
  }

  lemma {:induction false} ForwardOnly(s: Server, steps: seq<Step>, t: Server, id: Uuid)
    requires Run(s, steps, t) && id in s.conns
    ensures id in t.conns && Settled(s.conns[id], t.conns[id])
    ensures Rank(t.conns[id].phase) >= Rank(s.conns[id].phase)
    ensures Rank(t.conns[id].phase) == Rank(s.conns[id].phase) ==> t.conns[id].phase == s.conns[id].phase
    ensures Ended(s.conns[id].phase) ==>
              t.conns[id].phase == s.conns[id].phase && (id in t.streams <==> id in s.streams) && Get(t.active, id) == Get(s.active, id)
    decreases |steps|
  {
    if steps != [] {
      var m := Next(s, steps[0]);
      StepForward(s, steps[0], id);
      hide Next;
      hide Possible;
      ForwardOnly(m, steps[1..], t, id);
    }
  }

  lemma StepForward(s: Server, step: Step, id: Uuid)
    requires Possible(s, step) && id in s.conns
    ensures id in Next(s, step).conns && Settled(s.conns[id], Next(s, step).conns[id])
    ensures var t := Next(s, step);
      && Rank(t.conns[id].phase) >= Rank(s.conns[id].phase)
      && (Rank(t.conns[id].phase) == Rank(s.conns[id].phase) ==> t.conns[id].phase == s.conns[id].phase)
      && (Ended(s.conns[id].phase) ==>
            t.conns[id].phase == s.conns[id].phase && (id in t.streams <==> id in s.streams) && Get(t.active, id) == Get(s.active, id))
  {
    hide Next;
    hide Possible;
    hide PartOf;
    hide MoveNext;
    hide MoveAllowed;
    StepSettles(s, step, id);
    StepOnConn(s, step, id);
    var p, l, l' := PartOf(s, step), LocalOf(s, id), LocalOf(Next(s, step), id);
    if p.MovePart? && p.id == id {
      MoveForward(l, p.m);
    }
    assert l.conn == s.conns[id] && l'.conn == Next(s, step).conns[id];
    assert l.streamed == (id in s.streams) && l'.streamed == (id in Next(s, step).streams);
    assert l.act == Get(s.active, id) && l'.act == Get(Next(s, step).active, id);
  }

  /** Cleanup: once a connection's task is over, the connection is in none of the three maps exactly when
      its open message was sent and it was neither a UDP session forgotten after a failed carrier send nor a
      web request dropped before it heard the answer. */
  lemma EndedLeavesNothing(t: Server, id: Uuid)
    requires Reachable(t) && id in t.conns && Ended(t.conns[id].phase)
    ensures (id !in t.pending && id !in t.streams && id !in t.active)
       <==> (t.conns[id].asked && t.conns[id].phase != Forgotten && t.conns[id].phase != Dropped)
  {
    ReachableLocal(t, id);
  }

  /** The leaked entries stay: a connection whose open message could not be sent and a dropped web request
      keep their stream entry in every continuation of the run, and a forgotten UDP session its stream and
      active entries. */
  lemma {:induction false} LeaksAreForever(s: Server, steps: seq<Step>, t: Server, id: Uuid)
    requires Reachable(s) && Run(s, steps, t) && id in s.conns
    requires s.conns[id].phase == Abandoned || s.conns[id].phase == Forgotten || s.conns[id].phase == Dropped
    ensures id in t.streams && (s.conns[id].phase == Forgotten ==> id in t.active)
  {
    ForwardOnly(s, steps, t, id);
    ReachableLocal(s, id);
  }
}
