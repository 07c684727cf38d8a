/** UDP session tables: what every step keeps of them. */
module GatewayUdp {
  import opened Bytes
  import opened Protocol
  import opened Gateway
  import opened GatewaySafety

  /** A table entry is the one listed session of this listener and peer. */
  predicate EntryOk(s: Server, lid: nat, peer: Peer) {
    lid in s.listeners && peer in s.listeners[lid].sessions ==>
      var e := s.listeners[lid].sessions[peer];
      && e.id in s.conns && e.lastSeen <= s.now
      && var c := s.conns[e.id];
      c.phase == Listed && c.peer == peer && c.listener == lid && c.tunnel == s.listeners[lid].tunnel
  }

  /** A listed session is in its listener's table. */
  predicate ListedOk(s: Server, id: Uuid) {
    id in s.conns && s.conns[id].phase == Listed ==>
      var c := s.conns[id];
      && c.listener in s.listeners && c.peer in s.listeners[c.listener].sessions
      && s.listeners[c.listener].sessions[c.peer].id == id
  }

  /** The session a listener is busy with is its own, and not in its table. */
  predicate BusyOk(s: Server, lid: nat) {
    lid in s.listeners ==>
      var x := s.listeners[lid];
      && x.tunnel.kind == Udp
      && (x.busy.Some? ==>
            && x.busy.value in s.conns
            && var c := s.conns[x.busy.value];
            c.listener == lid && c.tunnel == x.tunnel && c.peer !in x.sessions)
  }

  ghost predicate TablesOk(s: Server) {
    && (forall lid, peer :: EntryOk(s, lid, peer))
    && (forall id :: ListedOk(s, id))
    && (forall lid :: BusyOk(s, lid))
  }

  /** From `s` to `t` no session is listed or unlisted and no connection changes identity. */
  ghost predicate SameListing(s: Server, t: Server) {
    && s.now <= t.now
    && (forall id :: id in s.conns ==>
          id in t.conns && Settled(s.conns[id], t.conns[id]) && (t.conns[id].phase == Listed <==> s.conns[id].phase == Listed))
    && (forall id :: id in t.conns && id !in s.conns ==> t.conns[id].phase != Listed)
  }

  lemma MoveListing(l: Local, m: Move)
    requires MoveAllowed(l, m) && !m.List? && !m.Unlist? && !m.Forget?
    ensures MoveNext(l, m).conn.phase == Listed <==> l.conn.phase == Listed
  {
    PhaseField(l, m);
    hide MoveNext;
  }

  /** Whether a step lists or unlists a session. */
  predicate Relists(step: Step) {
    step.Enlist? || step.Evict? || step.Lose? || step.HaltSession?
  }

  lemma StepListing(s: Server, step: Step, id: Uuid)
    requires Possible(s, step) && !Relists(step) && id in s.conns
    ensures id in Next(s, step).conns
    ensures Next(s, step).conns[id].phase == Listed <==> s.conns[id].phase == Listed
  {
    hide MoveNext;
    hide RowsOf;
    StepIsPart(s, step);
    var p := PartOf(s, step);
    hide Next;
    if p.MovePart? {
      MovedLocals(s, p.id, p.m, id);
      if p.id == id {
        MoveListing(LocalOf(s, id), p.m);
      }
    }
    hide Possible;
    hide PartOf;
    assert Next(s, step).conns == Core(Next(s, step)).conns;
    assert PartNext(s, p).conns == Core(PartNext(s, p)).conns;
  }

  lemma StepBirths(s: Server, step: Step, id: Uuid)
    requires Possible(s, step) && id in Next(s, step).conns && id !in s.conns
    ensures PartOf(s, step) == BirthPart(id, Next(s, step).conns[id])
    ensures Next(s, step).conns[id].phase == Admitted
  {
    StepIsPart(s, step);
    var p := PartOf(s, step);
    hide Next;
    hide PartOf;
    hide Possible;
    hide MoveNext;
    hide RowsOf;
    if p.MovePart? {
      MovedLocals(s, p.id, p.m, p.id);
    }
    assert Next(s, step).conns == Core(Next(s, step)).conns;
    assert PartNext(s, p).conns == Core(PartNext(s, p)).conns;
  }

  lemma StepSameListing(s: Server, step: Step)
    requires Possible(s, step) && !Relists(step)
    ensures SameListing(s, Next(s, step))
  {
    hide Next;
    hide Possible;
    ClockRuns(s, step);
    forall id | id in s.conns
      ensures id in Next(s, step).conns && Settled(s.conns[id], Next(s, step).conns[id])
      ensures Next(s, step).conns[id].phase == Listed <==> s.conns[id].phase == Listed
    {
      StepSettles(s, step, id);
      StepListing(s, step, id);
    }
    forall id | id in Next(s, step).conns && id !in s.conns ensures Next(s, step).conns[id].phase != Listed {
      StepBirths(s, step, id);
    }
  }

  lemma EntryKept(s: Server, t: Server, lid: nat, peer: Peer)
    requires EntryOk(s, lid, peer) && SameListing(s, t)
    requires lid in t.listeners && peer in t.listeners[lid].sessions ==>
               && lid in s.listeners && t.listeners[lid].tunnel == s.listeners[lid].tunnel
               && peer in s.listeners[lid].sessions
               && t.listeners[lid].sessions[peer].id == s.listeners[lid].sessions[peer].id
               && t.listeners[lid].sessions[peer].lastSeen <= t.now
    ensures EntryOk(t, lid, peer)
  {
  }

  lemma ListedKept(s: Server, t: Server, id: Uuid)
    requires ListedOk(s, id) && SameListing(s, t)
    requires id in s.conns ==>
               var c := s.conns[id];
               c.listener in s.listeners && c.peer in s.listeners[c.listener].sessions ==>
                 && c.listener in t.listeners && c.peer in t.listeners[c.listener].sessions
                 && t.listeners[c.listener].sessions[c.peer].id == s.listeners[c.listener].sessions[c.peer].id
    ensures ListedOk(t, id)
  {
  }

  lemma BusyKept(s: Server, t: Server, lid: nat)
    requires BusyOk(s, lid) && SameListing(s, t)
    requires lid in t.listeners ==>
               && lid in s.listeners && t.listeners[lid].tunnel == s.listeners[lid].tunnel
               && t.listeners[lid].sessions.Keys == s.listeners[lid].sessions.Keys
               && (t.listeners[lid].busy == s.listeners[lid].busy || t.listeners[lid].busy == None)
    ensures BusyOk(t, lid)
  {
  }

  lemma EachOk(s: Server, lid: nat, peer: Peer, id: Uuid)
    requires TablesOk(s)
    ensures EntryOk(s, lid, peer) && ListedOk(s, id) && BusyOk(s, lid)
  {
  }

  /** How a listener's own record may change while the same sessions stay listed. */
  predicate SameTable(x: Listener, y: Listener, now: nat) {
    && y.tunnel == x.tunnel && y.sessions.Keys == x.sessions.Keys && (y.busy == x.busy || y.busy == None)
    && forall peer :: peer in x.sessions ==>
         y.sessions[peer].id == x.sessions[peer].id
         && (y.sessions[peer].lastSeen == x.sessions[peer].lastSeen || y.sessions[peer].lastSeen <= now)
  }

  lemma SameTables(s: Server, t: Server)
    requires TablesOk(s) && SameListing(s, t) && t.listeners.Keys == s.listeners.Keys
    requires forall lid :: lid in s.listeners ==> SameTable(s.listeners[lid], t.listeners[lid], t.now)
    ensures TablesOk(t)
  {
    hide SameListing;
    forall lid, peer ensures EntryOk(t, lid, peer) {
      EachOk(s, lid, peer, NO_ID);
      EntryKept(s, t, lid, peer) by {
        assert s.now <= t.now by { SameListingClock(s, t); }
      }
    }
    forall id ensures ListedOk(t, id) {
      EachOk(s, 0, Peer(0, 0), id);
      ListedKept(s, t, id);
    }
    forall lid ensures BusyOk(t, lid) {
      EachOk(s, lid, Peer(0, 0), NO_ID);
      BusyKept(s, t, lid);
    }
  }

  lemma SameListingClock(s: Server, t: Server)
    requires SameListing(s, t)
    ensures s.now <= t.now
  {
  }

  const NO_ID: Uuid := [0, 0, 0, 0, 0, 0, 0, 0, 0, 0, 0, 0, 0, 0, 0, 0]

  // ---------------------------------------------------------------- steps that list or unlist nothing

  lemma PlainListeners(s: Server, step: Step)
    requires Possible(s, step) && !Relists(step) && !step.Listen? && !step.AdmitUdp?
    ensures var t := Next(s, step);
      && t.listeners.Keys == s.listeners.Keys
      && forall lid :: lid in s.listeners ==> SameTable(s.listeners[lid], t.listeners[lid], t.now)
  {
    hide MoveNext;
    hide RowsOf;
  }

  lemma ListenKeepsTables(s: Server, lid: nat, tunnel: Tunnel)
    requires TablesOk(s) && Possible(s, Listen(lid, tunnel))
    ensures TablesOk(Next(s, Listen(lid, tunnel)))
  {
    var t := Next(s, Listen(lid, tunnel));
    StepSameListing(s, Listen(lid, tunnel));
    hide SameListing;
    forall l, peer ensures EntryOk(t, l, peer) {
      EachOk(s, l, peer, NO_ID);
      EntryKept(s, t, l, peer);
    }
    forall id ensures ListedOk(t, id) {
      EachOk(s, lid, Peer(0, 0), id);
      ListedKept(s, t, id);
    }
    forall l ensures BusyOk(t, l) {
      EachOk(s, l, Peer(0, 0), NO_ID);
    }
  }

  lemma AdmitKeepsTables(s: Server, lid: nat, id: Uuid, peer: Peer, ticket: nat, bytes: seq<byte>)
    requires TablesOk(s) && Possible(s, AdmitUdp(lid, id, peer, ticket, bytes))
    ensures TablesOk(Next(s, AdmitUdp(lid, id, peer, ticket, bytes)))
  {
    var t := Next(s, AdmitUdp(lid, id, peer, ticket, bytes));
    StepSameListing(s, AdmitUdp(lid, id, peer, ticket, bytes));
    hide SameListing;
    forall l, p ensures EntryOk(t, l, p) {
      EachOk(s, l, p, NO_ID);
      EntryKept(s, t, l, p);
    }
    forall j ensures ListedOk(t, j) {
      EachOk(s, lid, peer, j);
      ListedKept(s, t, j);
    }
    forall l ensures BusyOk(t, l) {
      EachOk(s, l, peer, NO_ID);
    }
  }

  // ---------------------------------------------------------------- steps that list or unlist

  /** From `s` to `t` only session `id` changes, at listener `lid`, and keeps its identity. */
  ghost predicate OnlyHere(s: Server, t: Server, lid: nat, id: Uuid) {
    && t.now == s.now && id in s.conns && id in t.conns && lid in s.listeners && lid in t.listeners
    && t.conns == s.conns[id := t.conns[id]] && t.listeners == s.listeners[lid := t.listeners[lid]]
    && (var c, d := s.conns[id], t.conns[id]; d.tunnel == c.tunnel && d.peer == c.peer && d.listener == c.listener)
    && s.conns[id].listener == lid && s.conns[id].tunnel == s.listeners[lid].tunnel
    && t.listeners[lid].tunnel == s.listeners[lid].tunnel
  }

  lemma Listing(s: Server, t: Server, lid: nat, id: Uuid)
    requires TablesOk(s) && OnlyHere(s, t, lid, id)
    requires var peer, x, y := s.conns[id].peer, s.listeners[lid], t.listeners[lid];
      && t.conns[id].phase == Listed && peer !in x.sessions && y.busy == None
      && y.sessions == x.sessions[peer := Session(id, s.now)]
    ensures TablesOk(t)
  {
    forall l, p ensures EntryOk(t, l, p) {
      EachOk(s, l, p, id);
    }
    forall j ensures ListedOk(t, j) {
      EachOk(s, lid, s.conns[id].peer, j);
    }
    forall l ensures BusyOk(t, l) {
      EachOk(s, l, s.conns[id].peer, id);
    }
  }

  lemma Unlisting(s: Server, t: Server, lid: nat, id: Uuid)
    requires TablesOk(s) && OnlyHere(s, t, lid, id)
    requires var peer, x, y := s.conns[id].peer, s.listeners[lid], t.listeners[lid];
      && t.conns[id].phase != Listed && peer in x.sessions && x.sessions[peer].id == id
      && y.sessions == x.sessions - {peer} && (y.busy == x.busy || y.busy == Some(id))
    ensures TablesOk(t)
  {
    forall l, p ensures EntryOk(t, l, p) {
      EachOk(s, l, p, id);
    }
    forall j ensures ListedOk(t, j) {
      EachOk(s, lid, s.conns[id].peer, j);
    }
    forall l ensures BusyOk(t, l) {
      EachOk(s, l, s.conns[id].peer, id);
    }
  }

  /** The session a listener step lists or unlists. */
  function Subject(s: Server, step: Step): Uuid
    requires Possible(s, step)
  {
    match step
    case Enlist(lid) => s.listeners[lid].busy.value
    case Evict(lid, peer) => s.listeners[lid].sessions[peer].id
    case Lose(lid, peer) => s.listeners[lid].sessions[peer].id
    case HaltSession(lid, peer) => s.listeners[lid].sessions[peer].id
    case _ => NO_ID
  }

  lemma MovedConns(s: Server, id: Uuid, m: Move)
    requires CanMove(s, id, m)
    ensures var t := Moved(s, id, m);
      && t.conns == s.conns[id := MoveNext(LocalOf(s, id), m).conn] && t.now == s.now && t.listeners == s.listeners
  {
    hide MoveNext;
    hide RowsOf;
  }

  lemma MoveKeepsIdentity(l: Local, m: Move)
    requires MoveAllowed(l, m) && (m.List? || m.Unlist? || m.Forget?)
    ensures MoveNext(l, m).conn == l.conn.(phase := MoveNext(l, m).conn.phase)
    ensures MoveNext(l, m).conn.phase == Listed <==> m.List?
  {
  }

  lemma RelistIsOnlyHere(s: Server, step: Step)
    requires TablesOk(s) && Possible(s, step) && Relists(step)
    ensures OnlyHere(s, Next(s, step), step.lid, Subject(s, step))
    ensures Next(s, step).conns[Subject(s, step)].phase == Listed <==> step.Enlist?
    ensures !step.Enlist? ==> s.conns[Subject(s, step)].peer == step.peer
    ensures step.Enlist? ==> s.conns[Subject(s, step)].peer !in s.listeners[step.lid].sessions
  {
    hide TablesOk;
    EachOk(s, step.lid, if step.Enlist? then Peer(0, 0) else step.peer, NO_ID);
    var id, m := Subject(s, step), PartOf(s, step).m;
    MovedConns(s, id, m);
    MoveKeepsIdentity(LocalOf(s, id), m);
    hide Moved;
    hide MoveNext;
    hide MoveAllowed;
  }

  lemma RelistKeepsTables(s: Server, step: Step)
    requires TablesOk(s) && Possible(s, step) && Relists(step)
    ensures TablesOk(Next(s, step))
  {
    RelistIsOnlyHere(s, step);
    hide MoveNext;
    hide RowsOf;
    hide TablesOk;
    hide OnlyHere;
    if step.Enlist? {
      Listing(s, Next(s, step), step.lid, Subject(s, step));
    } else {
      Unlisting(s, Next(s, step), step.lid, Subject(s, step));
    }
  }

  lemma StepKeepsTables(s: Server, step: Step)
    requires TablesOk(s) && Possible(s, step)
    ensures TablesOk(Next(s, step))
  {
    if Relists(step) {
      RelistKeepsTables(s, step);
    } else if step.Listen? {
      ListenKeepsTables(s, step.lid, step.tunnel);
    } else if step.AdmitUdp? {
      AdmitKeepsTables(s, step.lid, step.id, step.peer, step.ticket, step.bytes);
    } else {
      hide TablesOk;
      PlainListeners(s, step);
      StepSameListing(s, step);
      hide Next;
      hide Possible;
      SameTables(s, Next(s, step));
    }
  }
}
