/** The UDP listener task as code: the idle sweep, inbound datagrams, opening a session for a new peer, and
    stopping. Its session table is the one in the shared state, and each method is a run of `Gateway`. */
module UdpListener {
  import opened Bytes
  import opened Protocol
  import opened Gateway
  import opened GatewaySafety
  import opened GatewayUdp
  import opened GatewayRuns
  import opened AppState

  /** What happened to one inbound datagram. `Opening`: the listener waits for the agent's answer before it
      goes on with this datagram. */
  datatype Outcome =
    | Rejected | OpenFailed | Opening(id: Uuid) | AgentGone | SendFailed | Forwarded(frame: CarrierFrame)

  predicate Fresh(e: Session, now: nat, timeout: nat) {
    now - e.lastSeen < timeout
  }

  function Ids(sessions: map<Peer, Session>): set<Uuid> {
    set peer | peer in sessions :: sessions[peer].id
  }

  /** The entries an idle sweep drops. */
  function Stale(sessions: map<Peer, Session>, now: nat, timeout: nat): map<Peer, Session> {
    map peer | peer in sessions && !Fresh(sessions[peer], now, timeout) :: sessions[peer]
  }

  function Kept(sessions: map<Peer, Session>, now: nat, timeout: nat): map<Peer, Session> {
    map peer | peer in sessions && Fresh(sessions[peer], now, timeout) :: sessions[peer]
  }

  lemma KeptAndStale(sessions: map<Peer, Session>, now: nat, timeout: nat)
    ensures |Kept(sessions, now, timeout)| + |Stale(sessions, now, timeout)| == |sessions|
  {
    var k, d := Kept(sessions, now, timeout), Stale(sessions, now, timeout);
    assert k.Keys + d.Keys == sessions.Keys && k.Keys !! d.Keys;
    assert |k| == |k.Keys| && |d| == |d.Keys| && |sessions| == |sessions.Keys|;
  }

  lemma IdsRemove(sessions: map<Peer, Session>, peer: Peer)
    requires peer in sessions
    ensures Ids(sessions) == Ids(sessions - {peer}) + {sessions[peer].id}
  {
    var rest := sessions - {peer};
    forall id | id in Ids(sessions) ensures id in Ids(rest) + {sessions[peer].id} {
      var p :| p in sessions && sessions[p].id == id;
      if p != peer {
        assert p in rest && rest[p].id == id;
      }
    }
    forall id | id in Ids(rest) ensures id in Ids(sessions) {
      var p :| p in rest && rest[p].id == id;
      assert p in sessions;
    }
  }

  lemma IdsAre(sessions: map<Peer, Session>)
    ensures forall i :: i in Ids(sessions) <==> exists p :: p in sessions && sessions[p].id == i
  {
  }

  lemma NoIds()
    ensures Ids(map[]) == {}
  {
  }

  lemma RemoveNew(sessions: map<Peer, Session>, peer: Peer, e: Session)
    ensures sessions[peer := e] - {peer} == sessions - {peer}
  {
  }

  lemma RemoveTwice<V>(streams: set<Uuid>, active: map<Uuid, V>, ids: set<Uuid>, id: Uuid)
    ensures streams - ids - {id} == streams - (ids + {id})
    ensures active - ids - {id} == active - (ids + {id})
  {
  }

  /** `rest` and `dropped` are the two parts of `all`. */
  ghost predicate Split(all: map<Peer, Session>, rest: map<Peer, Session>, dropped: map<Peer, Session>) {
    && (forall p :: p in all <==> p in rest || p in dropped)
    && (forall p :: p in rest ==> p !in dropped && rest[p] == all[p])
    && (forall p :: p in dropped ==> dropped[p] == all[p])
  }

  lemma DropOne(all: map<Peer, Session>, rest: map<Peer, Session>, dropped: map<Peer, Session>, peer: Peer)
    requires Split(all, rest, dropped) && peer in rest
    ensures var more := dropped[peer := rest[peer]];
      Split(all, rest - {peer}, more) && |more| == |dropped| + 1 && Ids(more) == Ids(dropped) + {rest[peer].id}
  {
    var more := dropped[peer := rest[peer]];
    assert more - {peer} == dropped;
    IdsRemove(more, peer);
  }

  lemma SplitIsSweep(all: map<Peer, Session>, rest: map<Peer, Session>, dropped: map<Peer, Session>, now: nat, timeout: nat)
    requires Split(all, rest, dropped)
    requires forall p :: p in rest ==> Fresh(rest[p], now, timeout)
    requires forall p :: p in dropped ==> !Fresh(dropped[p], now, timeout)
    ensures rest == Kept(all, now, timeout) && dropped == Stale(all, now, timeout) && |rest| + |dropped| == |all|
  {
    KeptAndStale(all, now, timeout);
    assert rest == Kept(all, now, timeout);
    assert dropped == Stale(all, now, timeout);
  }

  // ---------------------------------------------------------------- the listener's steps, one by one

  function WithTable(s: Server, lid: nat, sessions: map<Peer, Session>): Server
    requires lid in s.listeners
  {
    WithListener(s, lid, s.listeners[lid].(sessions := sessions))
  }

  function WithConn(s: Server, id: Uuid, c: Conn): Server {
    s.(conns := s.conns[id := c])
  }

  /** A table entry's session is listed, and belongs to this listener and peer. */
  lemma EntryIsListed(s: Server, lid: nat, peer: Peer)
    requires ServerOk(s) && lid in s.listeners && peer in s.listeners[lid].sessions
    ensures var e := s.listeners[lid].sessions[peer];
      && e.id in s.conns && e.lastSeen <= s.now
      && s.conns[e.id].phase == Listed && IsUdp(s.conns[e.id])
      && s.conns[e.id].peer == peer && s.conns[e.id].tunnel == s.listeners[lid].tunnel
  {
    hide TablesOk;
    ServerTables(s);
    hide ServerOk;
    EachOk(s, lid, peer, NO_ID);
  }

  lemma HearIs(s: Server, lid: nat, peer: Peer, bytes: seq<byte>)
    requires Idle(s, lid) && Known(s, lid, peer)
    ensures var x := s.listeners[lid];
      && Possible(s, Hear(lid, peer, bytes))
      && Next(s, Hear(lid, peer, bytes))
         == WithListener(s, lid, x.(sessions := x.sessions[peer := Session(x.sessions[peer].id, s.now)], inbound := Some(Datagram(peer, bytes))))
  {
    hide Moved;
    hide MoveAllowed;
    var e := s.listeners[lid].sessions[peer];
    assert e.(lastSeen := s.now) == Session(e.id, s.now);
  }

  lemma {:induction false} Hearing(s: Server, lid: nat, peer: Peer, bytes: seq<byte>)
    requires ServerOk(s) && Idle(s, lid) && peer in s.listeners[lid].sessions
    ensures var x := s.listeners[lid];
      Run(s, [Hear(lid, peer, bytes)],
          WithListener(s, lid, x.(sessions := x.sessions[peer := Session(x.sessions[peer].id, s.now)], inbound := Some(Datagram(peer, bytes)))))
  {
    EntryIsListed(s, lid, peer);
    hide ServerOk;
    HearIs(s, lid, peer, bytes);
    hide Next;
    hide Possible;
    hide Run;
    hide WithListener;
    RunsOne(s, Hear(lid, peer, bytes));
  }

  /** The listener is dealing with a datagram of a peer in its table. */
  predicate Dealing(s: Server, lid: nat, peer: Peer, bytes: seq<byte>) {
    Handling(s, lid) && s.listeners[lid].inbound == Some(Datagram(peer, bytes)) && peer in s.listeners[lid].sessions
  }

  lemma {:induction false} Losing(s: Server, lid: nat, peer: Peer, bytes: seq<byte>)
    requires Dealing(s, lid, peer, bytes)
    requires var id := s.listeners[lid].sessions[peer].id; id in s.conns && s.conns[id].phase == Listed
    ensures var x := s.listeners[lid];
      var id := x.sessions[peer].id;
      Run(s, [Lose(lid, peer)],
          WithListener(WithConn(s, id, s.conns[id].(phase := Forgotten)), lid, x.(sessions := x.sessions - {peer}, inbound := None)))
  {
    var id := s.listeners[lid].sessions[peer].id;
    QuietMove(s, id, Forget, s.conns[id].(phase := Forgotten));
    hide Moved;
    RunsOne(s, Lose(lid, peer));
    hide Run;
  }

  lemma {:induction false} Skipping(s: Server, lid: nat)
    requires Handling(s, lid)
    ensures Run(s, [Skip(lid)], WithListener(s, lid, s.listeners[lid].(inbound := None)))
  {
    hide Moved;
    hide MoveAllowed;
    RunsOne(s, Skip(lid));
    hide Run;
  }

  lemma HandLocal(l: Local, id: Uuid, d: seq<byte>)
    requires l.conn.phase == Listed && IsUdp(l.conn)
    ensures MoveAllowed(l, Hand(d)) && UpBytes(l, Hand(d)) == 0 && DownBytes(Hand(d)) == |d| && RowsOf(l, id, Hand(d)) == []
    ensures MoveNext(l, Hand(d)) == l.(conn := l.conn.(handed := l.conn.handed + [d], down := l.conn.down + |d|))
  {
  }

  lemma HandIs(s: Server, id: Uuid, d: seq<byte>)
    requires id in s.conns && s.conns[id].phase == Listed && IsUdp(s.conns[id])
    ensures CanMove(s, id, Hand(d))
    ensures var c := s.conns[id];
      Moved(s, id, Hand(d)) == WithConn(s, id, c.(handed := c.handed + [d], down := c.down + |d|)).(bytesDown := s.bytesDown + |d|)
  {
    HandLocal(LocalOf(s, id), id, d);
    hide MoveAllowed;
    hide MoveNext;
    hide UpBytes;
    hide DownBytes;
    hide RowsOf;
    MoveIs(s, id, Hand(d));
    hide Moved;
    Associate(s.history, [], []);
  }

  function PassedOn(s: Server, lid: nat, id: Uuid, d: seq<byte>): Server
    requires lid in s.listeners && id in s.conns
  {
    var c := s.conns[id];
    WithListener(WithConn(s, id, c.(handed := c.handed + [d], down := c.down + |d|)).(bytesDown := s.bytesDown + |d|), lid,
                 s.listeners[lid].(inbound := None))
  }

  lemma {:induction false} Handing(s: Server, lid: nat, peer: Peer, d: seq<byte>)
    requires Dealing(s, lid, peer, d)
    requires var id := s.listeners[lid].sessions[peer].id; id in s.conns && s.conns[id].phase == Listed && IsUdp(s.conns[id])
    ensures var id := s.listeners[lid].sessions[peer].id; Run(s, [PassOn(lid, id, d)], PassedOn(s, lid, id, d))
  {
    PassIs(s, lid, peer, d);
    hide Next;
    hide Possible;
    hide Run;
    hide PassedOn;
    RunsOne(s, PassOn(lid, s.listeners[lid].sessions[peer].id, d));
  }

  lemma PassIs(s: Server, lid: nat, peer: Peer, d: seq<byte>)
    requires Dealing(s, lid, peer, d)
    requires var id := s.listeners[lid].sessions[peer].id; id in s.conns && s.conns[id].phase == Listed && IsUdp(s.conns[id])
    ensures var id := s.listeners[lid].sessions[peer].id;
      Possible(s, PassOn(lid, id, d)) && Next(s, PassOn(lid, id, d)) == PassedOn(s, lid, id, d)
  {
    hide CanMove;
    hide Moved;
    hide Next;
    hide Possible;
    var id := s.listeners[lid].sessions[peer].id;
    HandIs(s, id, d);
    PassCan(s, lid, peer, d);
    PassMoves(s, lid, id, d);
  }

  lemma PassCan(s: Server, lid: nat, peer: Peer, d: seq<byte>)
    requires Dealing(s, lid, peer, d)
    requires var id := s.listeners[lid].sessions[peer].id; id in s.conns && CanMove(s, id, Hand(d))
    ensures Possible(s, PassOn(lid, s.listeners[lid].sessions[peer].id, d))
  {
    hide CanMove;
  }

  lemma PassMoves(s: Server, lid: nat, id: Uuid, d: seq<byte>)
    requires Possible(s, PassOn(lid, id, d))
    ensures CanMove(s, id, Hand(d)) && Next(s, PassOn(lid, id, d)) == WithListener(Moved(s, id, Hand(d)), lid, s.listeners[lid].(inbound := None))
  {
    hide MoveNext;
    hide MoveAllowed;
    hide Moved;
  }

  /** A session that is leaving: its stream entry goes, then its active entry. */
  lemma StreamDropped(s: Server, id: Uuid, why: Why)
    requires id in s.conns && s.conns[id].phase == Closing(why)
    ensures CanMove(s, id, DropStream)
    ensures Moved(s, id, DropStream) == WithConn(s, id, s.conns[id].(phase := Departing(why))).(streams := s.streams - {id})
  {
    MoveIs(s, id, DropStream);
    hide Moved;
    Associate(s.history, [], []);
    assert id !in s.streams ==> s.streams - {id} == s.streams;
  }

  lemma ActiveDropped(s: Server, id: Uuid, why: Why)
    requires id in s.conns && s.conns[id].phase == Departing(why) && IsUdp(s.conns[id])
    ensures CanMove(s, id, DropActive)
    ensures Moved(s, id, DropActive)
         == WithConn(s, id, s.conns[id].(phase := if why == Evicted then Uncounting else Closed(why))).(active := s.active - {id})
  {
    MoveIs(s, id, DropActive);
    hide Moved;
    Associate(s.history, [], []);
    assert id !in s.active ==> s.active - {id} == s.active;
  }

  lemma Uncounted(s: Server, id: Uuid)
    requires id in s.conns && s.conns[id].phase == Uncounting
    ensures CanMove(s, id, Uncount)
    ensures Moved(s, id, Uncount) == WithConn(s, id, s.conns[id].(phase := Closed(Evicted))).(activeUdp := s.activeUdp - 1)
  {
    MoveIs(s, id, Uncount);
    hide Moved;
    Associate(s.history, [], []);
  }

  lemma ConnTwice(s: Server, id: Uuid, c: Conn, d: Conn)
    ensures WithConn(WithConn(s, id, c), id, d) == WithConn(s, id, d)
  {
  }

  /** Both entries of a leaving session go. */
  lemma Unregistering(s: Server, id: Uuid, why: Why)
    requires id in s.conns && s.conns[id].phase == Closing(why) && IsUdp(s.conns[id])
    ensures Run(s, [Task(id, DropStream), Task(id, DropActive)],
                WithConn(s, id, s.conns[id].(phase := if why == Evicted then Uncounting else Closed(why)))
                  .(streams := s.streams - {id}, active := s.active - {id}))
  {
    hide Moved;
    hide Run;
    var c := s.conns[id];
    StreamDropped(s, id, why);
    var t := Moved(s, id, DropStream);
    ActiveDropped(t, id, why);
    TwoMoves(s, id, DropStream, DropActive);
    ConnTwice(s, id, c.(phase := Departing(why)), c.(phase := if why == Evicted then Uncounting else Closed(why)));
  }

  function Unlisted(s: Server, lid: nat, peer: Peer, why: Why, busy: Option<Uuid>): Server
    requires lid in s.listeners && peer in s.listeners[lid].sessions && s.listeners[lid].sessions[peer].id in s.conns
  {
    var x := s.listeners[lid];
    var id := x.sessions[peer].id;
    WithListener(WithConn(s, id, s.conns[id].(phase := Closing(why))), lid, x.(busy := busy, sessions := x.sessions - {peer}))
  }

  lemma UnlistIs(s: Server, lid: nat, peer: Peer, why: Why)
    requires Known(s, lid, peer) && s.conns[s.listeners[lid].sessions[peer].id].phase == Listed
    requires if why == Evicted
             then Idle(s, lid) && s.listeners[lid].sessions[peer].lastSeen <= s.now && !Fresh(s.listeners[lid].sessions[peer], s.now, s.udpTimeout)
             else why == Stopped && !s.listeners[lid].running
    ensures var step, x := if why == Evicted then Evict(lid, peer) else HaltSession(lid, peer), s.listeners[lid];
      && Possible(s, step)
      && Next(s, step) == Unlisted(s, lid, peer, why, if why == Evicted then Some(x.sessions[peer].id) else x.busy)
  {
    var id := s.listeners[lid].sessions[peer].id;
    QuietMove(s, id, Unlist(why), s.conns[id].(phase := Closing(why)));
    hide Moved;
  }

  /** An entry leaves the table, for idleness or because the listener stops. */
  lemma {:induction false} Unlisting(s: Server, lid: nat, peer: Peer, why: Why)
    requires ServerOk(s) && lid in s.listeners && peer in s.listeners[lid].sessions
    requires if why == Evicted then Idle(s, lid) && !Fresh(s.listeners[lid].sessions[peer], s.now, s.udpTimeout)
             else why == Stopped && !s.listeners[lid].running
    ensures s.listeners[lid].sessions[peer].id in s.conns
    ensures var x := s.listeners[lid];
      Run(s, [if why == Evicted then Evict(lid, peer) else HaltSession(lid, peer)],
          Unlisted(s, lid, peer, why, if why == Evicted then Some(x.sessions[peer].id) else x.busy))
  {
    EntryIsListed(s, lid, peer);
    hide ServerOk;
    UnlistIs(s, lid, peer, why);
    hide Next;
    hide Possible;
    hide Run;
    hide Unlisted;
    RunsOne(s, if why == Evicted then Evict(lid, peer) else HaltSession(lid, peer));
  }

  /** The state after a session has left: its entries are gone, and an evicted one is no longer counted. */
  function Without(s: Server, lid: nat, peer: Peer, why: Why): Server
    requires lid in s.listeners && peer in s.listeners[lid].sessions && s.listeners[lid].sessions[peer].id in s.conns
  {
    var x := s.listeners[lid];
    var id := x.sessions[peer].id;
    WithTable(WithConn(s, id, s.conns[id].(phase := Closed(why))), lid, x.sessions - {peer})
      .(streams := s.streams - {id}, active := s.active - {id}, activeUdp := if why == Evicted then s.activeUdp - 1 else s.activeUdp)
  }

  function StopSteps(lid: nat, peer: Peer, id: Uuid): seq<Step> {
    [HaltSession(lid, peer)] + [Task(id, DropStream), Task(id, DropActive)]
  }

  function EvictSteps(lid: nat, peer: Peer, id: Uuid): seq<Step> {
    [Evict(lid, peer)] + [Task(id, DropStream), Task(id, DropActive)] + [Task(id, Uncount)] + [Release(lid)]
  }

  lemma {:induction false} Stopping(s: Server, lid: nat, peer: Peer)
    requires ServerOk(s) && lid in s.listeners && peer in s.listeners[lid].sessions && !s.listeners[lid].running
    ensures s.listeners[lid].sessions[peer].id in s.conns
    ensures Run(s, StopSteps(lid, peer, s.listeners[lid].sessions[peer].id), Without(s, lid, peer, Stopped))
  {
    hide Run;
    var x := s.listeners[lid];
    var id := x.sessions[peer].id;
    EntryIsListed(s, lid, peer);
    Unlisting(s, lid, peer, Stopped);
    hide ServerOk;
    var t := Unlisted(s, lid, peer, Stopped, x.busy);
    Unregistering(t, id, Stopped);
    ConnTwice(s, id, s.conns[id].(phase := Closing(Stopped)), s.conns[id].(phase := Closed(Stopped)));
    RunsJoin(s, [HaltSession(lid, peer)], t, [Task(id, DropStream), Task(id, DropActive)], Without(s, lid, peer, Stopped));
  }

  lemma {:induction false} Evicting(s: Server, lid: nat, peer: Peer)
    requires ServerOk(s) && Idle(s, lid) && peer in s.listeners[lid].sessions
    requires !Fresh(s.listeners[lid].sessions[peer], s.now, s.udpTimeout)
    ensures s.listeners[lid].sessions[peer].id in s.conns
    ensures Run(s, EvictSteps(lid, peer, s.listeners[lid].sessions[peer].id), Without(s, lid, peer, Evicted))
  {
    hide Run;
    var x := s.listeners[lid];
    var id := x.sessions[peer].id;
    var drops := [Task(id, DropStream), Task(id, DropActive)];
    EntryIsListed(s, lid, peer);
    Unlisting(s, lid, peer, Evicted);
    hide ServerOk;
    var t := Unlisted(s, lid, peer, Evicted, Some(id));
    Unregistering(t, id, Evicted);
    var u := WithConn(t, id, t.conns[id].(phase := Uncounting)).(streams := t.streams - {id}, active := t.active - {id});
    RunsJoin(s, [Evict(lid, peer)], t, drops, u);
    Releasing(s, lid, peer, u, [Evict(lid, peer)] + drops);
  }

  lemma ReleaseIs(s: Server, lid: nat, id: Uuid)
    requires lid in s.listeners && s.listeners[lid].busy == Some(id) && id in s.conns && Done(s.conns[id].phase)
    ensures Possible(s, Release(lid)) && Next(s, Release(lid)) == WithListener(s, lid, s.listeners[lid].(busy := None, inbound := None))
  {
    hide Moved;
    hide MoveAllowed;
  }

  lemma {:induction false} Releasing(s: Server, lid: nat, peer: Peer, u: Server, past: seq<Step>)
    requires lid in s.listeners && peer in s.listeners[lid].sessions && s.listeners[lid].sessions[peer].id in s.conns
    requires s.listeners[lid].busy == None && s.listeners[lid].inbound == None && Run(s, past, u)
    requires var id := s.listeners[lid].sessions[peer].id;
      && var t := Unlisted(s, lid, peer, Evicted, Some(id));
      u == WithConn(t, id, t.conns[id].(phase := Uncounting)).(streams := t.streams - {id}, active := t.active - {id})
    ensures var id := s.listeners[lid].sessions[peer].id;
      Run(s, past + [Task(id, Uncount)] + [Release(lid)], Without(s, lid, peer, Evicted))
  {
    hide Run;
    hide Next;
    hide Possible;
    hide Moved;
    var x := s.listeners[lid];
    var id := x.sessions[peer].id;
    Uncounted(u, id);
    var v := Moved(u, id, Uncount);
    hide CanMove;
    ReleaseIs(v, lid, id);
    assert WithListener(v, lid, v.listeners[lid].(busy := None, inbound := None)) == Without(s, lid, peer, Evicted);
    hide Without;
    hide Unlisted;
    hide WithListener;
    UncountThenRelease(s, past, u, id, lid);
  }

  lemma {:induction false} UncountThenRelease(s: Server, past: seq<Step>, u: Server, id: Uuid, lid: nat)
    requires Run(s, past, u) && CanMove(u, id, Uncount) && Possible(Moved(u, id, Uncount), Release(lid))
    ensures Run(s, past + [Task(id, Uncount)] + [Release(lid)], Next(Moved(u, id, Uncount), Release(lid)))
  {
    assert Possible(u, Task(id, Uncount));
    hide Run;
    hide Next;
    hide Possible;
    hide Moved;
    Extend(s, past, u, id, Uncount);
    RunThen(s, past + [Task(id, Uncount)], Moved(u, id, Uncount), Release(lid));
  }

  lemma AdmitIs(s: Server, lid: nat, id: Uuid, peer: Peer, ticket: nat, bytes: seq<byte>)
    requires Idle(s, lid) && id !in s.conns && peer !in s.listeners[lid].sessions && SourceAllowed(s.listeners[lid].tunnel, peer)
    ensures var x, step := s.listeners[lid], AdmitUdp(lid, id, peer, ticket, bytes);
      && Possible(s, step)
      && Next(s, step) == WithListener(WithConn(s, id, NewConn(x.tunnel, peer, lid, ticket)), lid,
                                       x.(busy := Some(id), inbound := Some(Datagram(peer, bytes))))
  {
    hide Moved;
    hide MoveAllowed;
  }

  lemma {:induction false} Enlisting(s: Server, lid: nat, id: Uuid)
    requires lid in s.listeners && s.listeners[lid].busy == Some(id) && id in s.conns && s.conns[id].phase == Opened && IsUdp(s.conns[id])
    ensures var x := s.listeners[lid];
      Run(s, [Enlist(lid)], WithListener(WithConn(s, id, s.conns[id].(phase := Listed)), lid,
                                         x.(busy := None, sessions := x.sessions[s.conns[id].peer := Session(id, s.now)])))
  {
    QuietMove(s, id, List, s.conns[id].(phase := Listed));
    hide Moved;
    RunsOne(s, Enlist(lid));
    hide Run;
  }

  /** The busy session of a listener: its own, and not in its table. */
  lemma BusyIsOwn(s: Server, lid: nat)
    requires ServerOk(s) && lid in s.listeners && s.listeners[lid].busy.Some?
    ensures var x := s.listeners[lid];
      && x.busy.value in s.conns && x.tunnel.kind == Udp
      && s.conns[x.busy.value].tunnel == x.tunnel && s.conns[x.busy.value].peer !in x.sessions
  {
    hide TablesOk;
    ServerTables(s);
    hide ServerOk;
    EachOk(s, lid, Peer(0, 0), NO_ID);
  }

  lemma IsForUdp(s: Server, lid: nat)
    requires ServerOk(s) && lid in s.listeners
    ensures s.listeners[lid].tunnel.kind == Udp
  {
    hide TablesOk;
    ServerTables(s);
    hide ServerOk;
    EachOk(s, lid, Peer(0, 0), NO_ID);
  }

  /** Where a sweep that began in `s` has come: `dropped` is what it has taken out of the table. */
  ghost predicate Sweeping(s: Server, t: Server, lid: nat, dropped: map<Peer, Session>) {
    && lid in s.listeners && lid in t.listeners && t.listeners == s.listeners[lid := t.listeners[lid]]
    && Split(s.listeners[lid].sessions, t.listeners[lid].sessions, dropped)
    && t.streams == s.streams - Ids(dropped) && t.active == s.active - Ids(dropped)
    && t.activeUdp == s.activeUdp - |dropped|
    && t.now == s.now && t.udpTimeout == s.udpTimeout
    && (forall p :: p in dropped ==> !Fresh(dropped[p], s.now, s.udpTimeout))
  }

  lemma SweepStarts(s: Server, lid: nat)
    requires lid in s.listeners
    ensures Sweeping(s, s, lid, map[])
  {
    NoIds();
  }

  lemma SweepGoesOn(s: Server, t: Server, u: Server, lid: nat, dropped: map<Peer, Session>, peer: Peer)
    requires Sweeping(s, t, lid, dropped) && peer in t.listeners[lid].sessions
    requires !Fresh(t.listeners[lid].sessions[peer], s.now, s.udpTimeout)
    requires lid in u.listeners && u.listeners == t.listeners[lid := u.listeners[lid]]
    requires u.listeners[lid].sessions == t.listeners[lid].sessions - {peer}
    requires u.streams == t.streams - {t.listeners[lid].sessions[peer].id} && u.active == t.active - {t.listeners[lid].sessions[peer].id}
    requires u.activeUdp == t.activeUdp - 1 && u.now == t.now && u.udpTimeout == t.udpTimeout
    ensures Sweeping(s, u, lid, dropped[peer := t.listeners[lid].sessions[peer]])
  {
    RemoveTwice(s.streams, s.active, Ids(dropped), t.listeners[lid].sessions[peer].id);
    DropOne(s.listeners[lid].sessions, t.listeners[lid].sessions, dropped, peer);
    hide Ids;
    hide Split;
  }

  lemma SweepEnds(s: Server, t: Server, lid: nat, dropped: map<Peer, Session>)
    requires Sweeping(s, t, lid, dropped)
    requires forall p :: p in t.listeners[lid].sessions ==> Fresh(t.listeners[lid].sessions[p], s.now, s.udpTimeout)
    ensures var all, rest := s.listeners[lid].sessions, t.listeners[lid].sessions;
      && (forall p :: p in rest <==> p in all && s.now - all[p].lastSeen < s.udpTimeout)
      && (forall p :: p in rest ==> rest[p] == all[p])
      && (forall i :: i in t.streams <==> i in s.streams && !(exists p :: p in all && p !in rest && all[p].id == i))
      && (forall i :: i in t.active <==> i in s.active && !(exists p :: p in all && p !in rest && all[p].id == i))
      && (forall i :: i in t.active ==> t.active[i] == s.active[i])
      && t.activeUdp - |rest| == s.activeUdp - |all| && t.listeners == s.listeners[lid := t.listeners[lid]]
  {
    SplitIsSweep(s.listeners[lid].sessions, t.listeners[lid].sessions, dropped, s.now, s.udpTimeout);
  }

  // ---------------------------------------------------------------- the task

  class UdpListener {
    const tunnel: Tunnel
    const lid: nat
    const state: AppState

    constructor (tunnel: Tunnel, lid: nat, state: AppState)
      ensures this.tunnel == tunnel && this.lid == lid && this.state == state
    {
      this.tunnel, this.lid, this.state := tunnel, lid, state;
    }

    ghost predicate Valid()
      reads state
    {
      ServerOk(state.Snapshot()) && lid in state.listeners && state.listeners[lid].tunnel == tunnel
    }

    /** At the top of its loop. */
    ghost predicate Ready()
      reads state
    {
      Valid() && Idle(state.Snapshot(), lid)
    }

    function Sessions(): map<Peer, Session>
      requires lid in state.listeners
      reads state
    {
      state.listeners[lid].sessions
    }

    /** Without its socket there is no listener. */
    method Start(bound: bool) returns (ghost steps: seq<Step>)
      requires lid !in state.listeners && tunnel.kind == Udp && ServerOk(state.Snapshot())
      modifies state`listeners, state`failed
      ensures Run(old(state.Snapshot()), steps, state.Snapshot())
      ensures if bound then Ready() && state.listeners == old(state.listeners)[lid := Listener(tunnel, true, None, map[], None)]
              else state.listeners == old(state.listeners)
      ensures state.failed == old(state.failed) + if bound then 0 else 1
    {
      hide Run;
      hide ServerOk;
      steps := [];
      RunsNone(state.Snapshot());
      if bound {
        ghost var s := state.Snapshot();
        RunsOne(s, Listen(lid, tunnel));
        StepKeepsServerOk(s, Listen(lid, tunnel));
        steps := [Listen(lid, tunnel)];
        state.listeners := state.listeners[lid := Listener(tunnel, true, None, map[], None)];
      } else {
        state.failed := state.failed + 1;
      }
    }

    // ---------------------------------------------------------------- the sweep

    method DropIdle(peer: Peer) returns (ghost steps: seq<Step>)
      requires Ready() && peer in Sessions() && !Fresh(Sessions()[peer], state.now, state.udpTimeout)
      modifies state`listeners, state`streams, state`active, state`activeUdp, state`conns
      ensures Ready() && Run(old(state.Snapshot()), steps, state.Snapshot())
      ensures Sessions() == old(Sessions()) - {peer}
      ensures state.listeners == old(state.listeners)[lid := state.listeners[lid]]
      ensures state.streams == old(state.streams) - {old(Sessions())[peer].id}
      ensures state.active == old(state.active) - {old(Sessions())[peer].id}
      ensures state.activeUdp == old(state.activeUdp) - 1
    {
      hide ServerOk;
      hide Run;
      var id := Sessions()[peer].id;
      ghost var s := state.Snapshot();
      Evicting(s, lid, peer);
      steps := EvictSteps(lid, peer, id);
      state.streams := state.streams - {id};
      state.active := state.active - {id};
      state.activeUdp := state.activeUdp - 1;
      state.listeners := state.listeners[lid := state.listeners[lid].(sessions := Sessions() - {peer})];
      state.conns := state.conns[id := state.conns[id].(phase := Closed(Evicted))];
      RunKeepsServerOk(s, steps, state.Snapshot());
    }

    /** The five-second sweep: exactly the sessions idle for the timeout or longer go, each with its stream
        and active entries and one count of the gauge. */
    method Sweep() returns (ghost steps: seq<Step>)
      requires Ready()
      modifies state`listeners, state`streams, state`active, state`activeUdp, state`conns
      ensures Ready() && Run(old(state.Snapshot()), steps, state.Snapshot())
      ensures forall p :: p in Sessions() <==> p in old(Sessions()) && state.now - old(Sessions())[p].lastSeen < state.udpTimeout
      ensures forall p :: p in Sessions() ==> Sessions()[p] == old(Sessions())[p]
      ensures state.listeners == old(state.listeners)[lid := state.listeners[lid]]
      ensures forall i :: i in state.streams <==>
                i in old(state.streams) && !(exists p :: p in old(Sessions()) && p !in Sessions() && old(Sessions())[p].id == i)
      ensures forall i :: i in state.active <==>
                i in old(state.active) && !(exists p :: p in old(Sessions()) && p !in Sessions() && old(Sessions())[p].id == i)
      ensures forall i :: i in state.active ==> state.active[i] == old(state.active)[i]
      ensures state.activeUdp - |Sessions()| == old(state.activeUdp - |Sessions()|)
    {
      hide Run;
      hide ServerOk;
      hide Sweeping;
      hide Kept;
      hide Stale;
      hide Ids;
      var todo := Sessions().Keys;
      steps := [];
      ghost var s, dropped: map<Peer, Session> := state.Snapshot(), map[];
      RunsNone(s);
      SweepStarts(s, lid);
      while todo != {}
        invariant Ready() && todo <= Sessions().Keys
        invariant Run(s, steps, state.Snapshot()) && Sweeping(s, state.Snapshot(), lid, dropped)
        invariant forall p :: p in Sessions() && p !in todo ==> Fresh(Sessions()[p], state.now, state.udpTimeout)
      {
        var peer :| peer in todo;
        todo := todo - {peer};
        if !Fresh(Sessions()[peer], state.now, state.udpTimeout) {
          ghost var t := state.Snapshot();
          ghost var more := DropIdle(peer);
          RunsJoin(s, steps, t, more, state.Snapshot());
          SweepGoesOn(s, t, state.Snapshot(), lid, dropped, peer);
          steps := steps + more;
          dropped := dropped[peer := t.listeners[lid].sessions[peer]];
        }
      }
      SweepEnds(s, state.Snapshot(), lid, dropped);
    }

    // ---------------------------------------------------------------- inbound datagrams

    /** The datagram goes to the agent as a frame of the peer's session; if the agent's carrier is gone, the
        session is dropped from the table and nothing else. */
    method Forward(peer: Peer, datagram: seq<byte>, sent: bool, ghost s: Server, ghost past: seq<Step>)
      returns (outcome: Outcome, ghost steps: seq<Step>)
      requires Valid() && Dealing(state.Snapshot(), lid, peer, datagram) && Run(s, past, state.Snapshot())
      modifies state`listeners, state`bytesDown, state`conns
      ensures Ready() && Run(s, steps, state.Snapshot())
      ensures outcome == if tunnel.agent !in state.agents then AgentGone
                         else if sent then Forwarded(CarrierFrame(FRAME_DATAGRAM, old(Sessions())[peer].id, datagram)) else SendFailed
      ensures Sessions() == if outcome == SendFailed then old(Sessions()) - {peer} else old(Sessions())
      ensures state.listeners == old(state.listeners)[lid := state.listeners[lid]]
      ensures state.bytesDown == old(state.bytesDown) + if outcome.Forwarded? then |datagram| else 0
    {
      hide ServerOk;
      hide Run;
      var id := Sessions()[peer].id;
      ghost var t := state.Snapshot();
      EntryIsListed(t, lid, peer);
      ghost var more;
      if tunnel.agent !in state.agents {
        Skipping(t, lid);
        more := [Skip(lid)];
        state.listeners := state.listeners[lid := state.listeners[lid].(inbound := None)];
        outcome := AgentGone;
      } else if sent {
        Handing(t, lid, peer, datagram);
        more := [PassOn(lid, id, datagram)];
        state.bytesDown := state.bytesDown + |datagram|;
        state.conns := state.conns[id := state.conns[id].(handed := state.conns[id].handed + [datagram],
                                                          down := state.conns[id].down + |datagram|)];
        state.listeners := state.listeners[lid := state.listeners[lid].(inbound := None)];
        outcome := Forwarded(CarrierFrame(FRAME_DATAGRAM, id, datagram));
      } else {
        Losing(t, lid, peer, datagram);
        more := [Lose(lid, peer)];
        state.conns := state.conns[id := state.conns[id].(phase := Forgotten)];
        state.listeners := state.listeners[lid := state.listeners[lid].(sessions := Sessions() - {peer}, inbound := None)];
        outcome := SendFailed;
      }
      RunKeepsServerOk(t, more, state.Snapshot());
      RunsJoin(s, past, t, more, state.Snapshot());
      steps := past + more;
    }

    /** One inbound datagram, up to where the listener waits for the agent if the peer is new: `id` and
        `ticket` are then the fresh ones of its session, and `openSent` says whether the agent's control
        channel took the open message. If not, ticket and stream stay behind. */
    method Receive(peer: Peer, datagram: seq<byte>, id: Uuid, ticket: nat, openSent: bool, sent: bool)
      returns (outcome: Outcome, ghost steps: seq<Step>)
      requires Ready() && id !in state.conns
      modifies state`listeners, state`pending, state`streams, state`conns, state`bytesDown, state`rejected, state`failed
      ensures Valid() && Run(old(state.Snapshot()), steps, state.Snapshot())
      ensures state.rejected == old(state.rejected) + (if outcome == Rejected then 1 else 0)
      ensures state.failed == old(state.failed) + (if outcome == OpenFailed then 1 else 0)
      ensures outcome == Rejected <==> peer.ip !in tunnel.sources
      ensures peer.ip in tunnel.sources && peer in old(Sessions()) ==>
        var known := old(Sessions())[peer].id;
        && outcome == (if tunnel.agent !in state.agents then AgentGone
                       else if sent then Forwarded(CarrierFrame(FRAME_DATAGRAM, known, datagram)) else SendFailed)
        && Sessions() == if outcome == SendFailed then old(Sessions()) - {peer} else old(Sessions())[peer := Session(known, state.now)]
      ensures peer.ip in tunnel.sources && peer !in old(Sessions()) ==>
        && outcome == (if tunnel.agent in state.agents && openSent then Opening(id) else OpenFailed)
        && Sessions() == old(Sessions())
      ensures outcome.Opening? ==>
        && state.listeners[lid].running && state.listeners[lid].busy == Some(id) && state.listeners[lid].inbound == Some(Datagram(peer, datagram))
        && id in state.conns && state.conns[id].phase == Waiting && state.conns[id].peer == peer
      ensures !outcome.Opening? ==> Ready()
      ensures outcome == Rejected ==> state.Snapshot() == old(state.Snapshot())
      ensures if peer.ip in tunnel.sources && peer !in old(Sessions()) && tunnel.agent in state.agents
              then && state.streams == old(state.streams) + {id}
                   && state.pending == old(state.pending)[id := Pending(tunnel.agent, TicketHash(ticket), state.now + state.ttl)]
              else state.streams == old(state.streams) && state.pending == old(state.pending)
      ensures state.bytesDown == old(state.bytesDown) + (if outcome.Forwarded? then |datagram| else 0)
    {
      hide ServerOk;
      hide Run;
      steps := [];
      ghost var s := state.Snapshot();
      RunsNone(s);
      if peer.ip !in tunnel.sources {
        state.rejected := state.rejected + 1;
        return Rejected, [];
      }
      if peer in Sessions() {
        steps := Touch(peer, datagram);
        outcome, steps := Forward(peer, datagram, sent, s, steps);
      } else {
        outcome, steps := ReceiveFirst(peer, datagram, id, ticket, openSent);
      }
    }

    /** The first datagram of a peer. */
    method ReceiveFirst(peer: Peer, datagram: seq<byte>, id: Uuid, ticket: nat, openSent: bool)
      returns (outcome: Outcome, ghost steps: seq<Step>)
      requires Ready() && id !in state.conns && peer !in Sessions() && peer.ip in tunnel.sources
      modifies state`listeners, state`pending, state`streams, state`conns, state`failed
      ensures Valid() && Run(old(state.Snapshot()), steps, state.Snapshot())
      ensures state.failed == old(state.failed) + (if outcome == OpenFailed then 1 else 0)
      ensures outcome == (if tunnel.agent in state.agents && openSent then Opening(id) else OpenFailed)
      ensures Sessions() == old(Sessions())
      ensures outcome.Opening? ==>
        && state.listeners[lid].running && state.listeners[lid].busy == Some(id) && state.listeners[lid].inbound == Some(Datagram(peer, datagram))
        && id in state.conns && state.conns[id].phase == Waiting && state.conns[id].peer == peer
      ensures !outcome.Opening? ==> Ready()
      ensures if tunnel.agent in state.agents
              then && state.streams == old(state.streams) + {id}
                   && state.pending == old(state.pending)[id := Pending(tunnel.agent, TicketHash(ticket), state.now + state.ttl)]
              else state.streams == old(state.streams) && state.pending == old(state.pending)
    {
      hide ServerOk;
      hide Run;
      steps := [];
      ghost var s := state.Snapshot();
      RunsNone(s);
      if tunnel.agent in state.agents {
        steps := BeginSession(peer, datagram, id, ticket, openSent);
        RunKeepsServerOk(s, steps, state.Snapshot());
        if openSent { return Opening(id), steps; }
      }
      state.failed := state.failed + 1;
      outcome := OpenFailed;
    }

    /** The peer has been heard of now. */
    method Touch(peer: Peer, datagram: seq<byte>) returns (ghost steps: seq<Step>)
      requires Ready() && peer in Sessions()
      modifies state`listeners
      ensures Valid() && Dealing(state.Snapshot(), lid, peer, datagram)
      ensures Run(old(state.Snapshot()), steps, state.Snapshot())
      ensures Sessions() == old(Sessions())[peer := Session(old(Sessions())[peer].id, state.now)]
      ensures state.listeners == old(state.listeners)[lid := state.listeners[lid]]
    {
      hide ServerOk;
      hide Run;
      ghost var s := state.Snapshot();
      Hearing(s, lid, peer, datagram);
      steps := [Hear(lid, peer, datagram)];
      state.listeners := state.listeners[lid := state.listeners[lid].(sessions := Sessions()[peer := Session(Sessions()[peer].id, state.now)],
                                                                      inbound := Some(Datagram(peer, datagram)))];
      RunKeepsServerOk(s, steps, state.Snapshot());
    }

    /** The first stretch of `open_session`: stream, ticket, open message. */
    method BeginSession(peer: Peer, datagram: seq<byte>, id: Uuid, ticket: nat, openSent: bool) returns (ghost steps: seq<Step>)
      requires Ready() && id !in state.conns && peer !in Sessions() && SourceAllowed(tunnel, peer)
      modifies state`listeners, state`pending, state`streams, state`conns
      ensures Run(old(state.Snapshot()), steps, state.Snapshot())
      ensures state.listeners == old(state.listeners)[lid := old(state.listeners)[lid].(
                busy := if openSent then Some(id) else None, inbound := if openSent then Some(Datagram(peer, datagram)) else None)]
      ensures id in state.conns && state.conns[id].peer == peer && state.conns[id].phase == (if openSent then Waiting else Abandoned)
      ensures state.streams == old(state.streams) + {id}
      ensures state.pending == old(state.pending)[id := Pending(tunnel.agent, TicketHash(ticket), state.now + state.ttl)]
    {
      hide ServerOk;
      hide Run;
      hide Next;
      hide Possible;
      ghost var s := state.Snapshot();
      AdmitIs(s, lid, id, peer, ticket, datagram);
      RunsOne(s, AdmitUdp(lid, id, peer, ticket, datagram));
      state.conns := state.conns[id := NewConn(tunnel, peer, lid, ticket)];
      state.listeners := state.listeners[lid := state.listeners[lid].(busy := Some(id), inbound := Some(Datagram(peer, datagram)))];
      steps := [AdmitUdp(lid, id, peer, ticket, datagram)];
      steps := AskAgent(id, ticket, openSent, s, steps);
      if !openSent {
        steps := LetGo(id, s, steps);
      }
    }

    method AskAgent(id: Uuid, ticket: nat, openSent: bool, ghost s: Server, ghost past: seq<Step>) returns (ghost steps: seq<Step>)
      requires Run(s, past, state.Snapshot()) && id in state.conns && state.conns[id].phase == Admitted
      requires state.conns[id].tunnel == tunnel && state.conns[id].ticket == ticket
      modifies state`pending, state`streams, state`conns
      ensures Run(s, steps, state.Snapshot())
      ensures id in state.conns && state.conns[id].peer == old(state.conns)[id].peer
      ensures state.conns[id].phase == if openSent then Waiting else Abandoned
      ensures state.streams == old(state.streams) + {id}
      ensures state.pending == old(state.pending)[id := Pending(tunnel.agent, TicketHash(ticket), state.now + state.ttl)]
    {
      hide Run;
      steps := state.InsertStream(id, s, past);
      steps := state.InsertPending(id, tunnel, ticket, s, steps);
      steps := state.NoteOpen(id, openSent, s, steps);
    }

    /** The listener is done with a session that it could not open. */
    method LetGo(id: Uuid, ghost s: Server, ghost past: seq<Step>) returns (ghost steps: seq<Step>)
      requires Run(s, past, state.Snapshot()) && lid in state.listeners && state.listeners[lid].busy == Some(id)
      requires id in state.conns && Done(state.conns[id].phase)
      modifies state`listeners
      ensures Run(s, steps, state.Snapshot())
      ensures state.listeners == old(state.listeners)[lid := old(state.listeners)[lid].(busy := None, inbound := None)]
    {
      hide Run;
      RunThen(s, past, state.Snapshot(), Release(lid));
      steps := past + [Release(lid)];
      state.listeners := state.listeners[lid := state.listeners[lid].(busy := None, inbound := None)];
    }

    /** From the agent's answer on: an accepted session is counted, entered as active and in the table, and the
        datagram that opened it is forwarded; otherwise ticket and stream are taken back. */
    method Resume(peer: Peer, datagram: seq<byte>, id: Uuid, heard: Option<bool>, sent: bool)
      returns (outcome: Outcome, ghost steps: seq<Step>)
      requires Valid() && state.listeners[lid].running && state.listeners[lid].busy == Some(id) && id in state.conns
      requires state.listeners[lid].inbound == Some(Datagram(peer, datagram))
      requires state.conns[id].phase == Waiting && state.conns[id].answer == heard && state.conns[id].peer == peer
      modifies state`listeners, state`pending, state`streams, state`active, state`activeUdp, state`conns, state`bytesDown, state`failed
      ensures Ready() && Run(old(state.Snapshot()), steps, state.Snapshot())
      ensures heard != Some(true) ==>
        && outcome == OpenFailed && Sessions() == old(Sessions()) && state.failed == old(state.failed) + 1
        && state.pending == old(state.pending) - {id} && state.streams == old(state.streams) - {id}
        && state.active == old(state.active) && state.activeUdp == old(state.activeUdp) && state.bytesDown == old(state.bytesDown)
      ensures heard == Some(true) ==>
        && outcome == (if tunnel.agent !in state.agents then AgentGone
                       else if sent then Forwarded(CarrierFrame(FRAME_DATAGRAM, id, datagram)) else SendFailed)
        && Sessions() == (if outcome == SendFailed then old(Sessions()) - {peer} else old(Sessions())[peer := Session(id, state.now)])
        && state.failed == old(state.failed) && state.pending == old(state.pending) && state.streams == old(state.streams)
        && state.active == old(state.active)[id := Active(tunnel.id, peer, Udp, 0, 0)] && state.activeUdp == old(state.activeUdp) + 1
        && state.bytesDown == old(state.bytesDown) + (if outcome.Forwarded? then |datagram| else 0)
    {
      hide ServerOk;
      hide Run;
      ghost var s := state.Snapshot();
      BusyIsOwn(s, lid);
      if heard == Some(true) {
        steps := Establish(peer, id);
        RunKeepsServerOk(s, steps, state.Snapshot());
        outcome, steps := Forward(peer, datagram, sent, s, steps);
        RemoveNew(old(Sessions()), peer, Session(id, state.now));
      } else {
        steps := Refuse(id);
        RunKeepsServerOk(s, steps, state.Snapshot());
        state.failed := state.failed + 1;
        outcome := OpenFailed;
      }
    }

    method Refuse(id: Uuid) returns (ghost steps: seq<Step>)
      requires lid in state.listeners && state.listeners[lid].busy == Some(id) && id in state.conns
      requires state.conns[id].phase == Waiting && state.conns[id].answer != Some(true)
      modifies state`listeners, state`pending, state`streams, state`conns
      ensures Run(old(state.Snapshot()), steps, state.Snapshot())
      ensures state.pending == old(state.pending) - {id} && state.streams == old(state.streams) - {id}
      ensures state.listeners == old(state.listeners)[lid := old(state.listeners)[lid].(busy := None, inbound := None)]
    {
      hide Run;
      ghost var s := state.Snapshot();
      RunsNone(s);
      steps := state.NoteHeard(id, s, []);
      steps := state.RemovePending(id, s, steps);
      steps := state.RemoveStream(id, s, steps);
      steps := LetGo(id, s, steps);
    }

    /** The second stretch of `open_session`, and the table entry. */
    method Establish(peer: Peer, id: Uuid) returns (ghost steps: seq<Step>)
      requires lid in state.listeners && state.listeners[lid].busy == Some(id) && id in state.conns
      requires state.conns[id].phase == Waiting && state.conns[id].answer == Some(true) && state.conns[id].peer == peer
      requires state.conns[id].tunnel == tunnel && tunnel.kind == Udp
      modifies state`listeners, state`active, state`activeUdp, state`conns
      ensures Run(old(state.Snapshot()), steps, state.Snapshot())
      ensures state.active == old(state.active)[id := Active(tunnel.id, peer, Udp, 0, 0)] && state.activeUdp == old(state.activeUdp) + 1
      ensures state.listeners == old(state.listeners)[lid := old(state.listeners)[lid].(
                busy := None, sessions := old(Sessions())[peer := Session(id, state.now)])]
    {
      hide Run;
      hide Next;
      hide Possible;
      hide LocalOf;
      ghost var s := state.Snapshot();
      RunsNone(s);
      steps := state.NoteHeard(id, s, []);
      steps := Activate(peer, id, s, steps);
      steps := EnterSession(peer, id, s, steps);
    }

    method Activate(peer: Peer, id: Uuid, ghost s: Server, ghost past: seq<Step>) returns (ghost steps: seq<Step>)
      requires Run(s, past, state.Snapshot()) && id in state.conns && state.conns[id].phase == Accepted
      requires state.conns[id].tunnel == tunnel && tunnel.kind == Udp && state.conns[id].peer == peer
      modifies state`active, state`activeUdp, state`conns
      ensures Run(s, steps, state.Snapshot())
      ensures state.active == old(state.active)[id := Active(tunnel.id, peer, Udp, 0, 0)] && state.activeUdp == old(state.activeUdp) + 1
      ensures state.conns == old(state.conns)[id := old(state.conns)[id].(phase := Opened)]
    {
      hide Run;
      steps := state.CountSession(id, s, past);
      steps := state.InsertActive(id, tunnel, peer, s, steps);
    }

    method EnterSession(peer: Peer, id: Uuid, ghost s: Server, ghost past: seq<Step>) returns (ghost steps: seq<Step>)
      requires Run(s, past, state.Snapshot()) && lid in state.listeners && state.listeners[lid].busy == Some(id)
      requires id in state.conns && state.conns[id].phase == Opened && IsUdp(state.conns[id]) && state.conns[id].peer == peer
      modifies state`listeners, state`conns
      ensures Run(s, steps, state.Snapshot())
      ensures state.listeners == old(state.listeners)[lid := old(state.listeners)[lid].(
                busy := None, sessions := old(Sessions())[peer := Session(id, state.now)])]
    {
      hide Run;
      ghost var t := state.Snapshot();
      Enlisting(t, lid, id);
      state.conns := state.conns[id := state.conns[id].(phase := Listed)];
      state.listeners := state.listeners[lid := state.listeners[lid].(busy := None, sessions := Sessions()[peer := Session(id, state.now)])];
      RunsJoin(s, past, t, [Enlist(lid)], state.Snapshot());
      steps := past + [Enlist(lid)];
    }

    // ---------------------------------------------------------------- stopping

    method DropStopped(peer: Peer) returns (ghost steps: seq<Step>)
      requires Valid() && !state.listeners[lid].running && peer in Sessions()
      modifies state`listeners, state`streams, state`active, state`conns
      ensures Valid() && Run(old(state.Snapshot()), steps, state.Snapshot())
      ensures state.listeners == old(state.listeners)[lid := old(state.listeners)[lid].(sessions := old(Sessions()) - {peer})]
      ensures state.streams == old(state.streams) - {old(Sessions())[peer].id}
      ensures state.active == old(state.active) - {old(Sessions())[peer].id}
    {
      hide ServerOk;
      hide Run;
      var id := Sessions()[peer].id;
      ghost var s := state.Snapshot();
      Stopping(s, lid, peer);
      steps := StopSteps(lid, peer, id);
      state.streams := state.streams - {id};
      state.active := state.active - {id};
      state.listeners := state.listeners[lid := state.listeners[lid].(sessions := Sessions() - {peer})];
      state.conns := state.conns[id := state.conns[id].(phase := Closed(Stopped))];
      RunKeepsServerOk(s, steps, state.Snapshot());
    }

    method LeaveLoop() returns (ghost steps: seq<Step>)
      requires Ready()
      modifies state`listeners
      ensures Valid() && Run(old(state.Snapshot()), steps, state.Snapshot())
      ensures state.listeners == old(state.listeners)[lid := old(state.listeners)[lid].(running := false)]
    {
      hide Run;
      hide ServerOk;
      RunsOne(state.Snapshot(), Halt(lid));
      StepKeepsServerOk(state.Snapshot(), Halt(lid));
      steps := [Halt(lid)];
      state.listeners := state.listeners[lid := state.listeners[lid].(running := false)];
    }

    /** Stopping: every session loses its entries, but the gauge keeps counting them. */
    method Stop() returns (ghost steps: seq<Step>)
      requires Ready()
      modifies state`listeners, state`streams, state`active, state`conns
      ensures Valid() && Run(old(state.Snapshot()), steps, state.Snapshot())
      ensures !state.listeners[lid].running && Sessions() == map[]
      ensures forall i :: i in state.streams <==> i in old(state.streams) && !(exists p :: p in old(Sessions()) && old(Sessions())[p].id == i)
      ensures forall i :: i in state.active <==> i in old(state.active) && !(exists p :: p in old(Sessions()) && old(Sessions())[p].id == i)
      ensures forall i :: i in state.active ==> state.active[i] == old(state.active)[i]
      ensures state.activeUdp == old(state.activeUdp)
    {
      hide Ids;
      hide Run;
      hide ServerOk;
      NoIds();
      ghost var all, done: set<Uuid> := Sessions(), {};
      steps := LeaveLoop();
      while Sessions() != map[]
        invariant Valid() && !state.listeners[lid].running
        invariant Run(old(state.Snapshot()), steps, state.Snapshot())
        invariant Ids(all) == done + Ids(Sessions())
        invariant state.streams == old(state.streams) - done
        invariant state.active == old(state.active) - done
        decreases |Sessions()|
      {
        var peer :| peer in Sessions();
        var id := Sessions()[peer].id;
        IdsRemove(Sessions(), peer);
        RemoveTwice(old(state.streams), old(state.active), done, id);
        ghost var s := state.Snapshot();
        ghost var more := DropStopped(peer);
        RunsJoin(old(state.Snapshot()), steps, s, more, state.Snapshot());
        steps := steps + more;
        done := done + {id};
      }
      IdsAre(all);
    }
  }
}
