/** UDP sessions over whole runs: registration, isolation of replies, idleness and leaks. */
module GatewaySessions {
  import opened Bytes
  import opened Protocol
  import opened Sums
  import opened Gateway
  import opened GatewaySafety
  import opened GatewayUdp
  import opened GatewayTotals
  import opened GatewayRuns
  import opened GatewayBooks

  lemma ReachableTables(t: Server)
    requires Reachable(t)
    ensures TablesOk(t)
  {
    hide TablesOk;
    ReachableIsOk(t);
  }

  /** A session in a listener's table has its stream entry and an active entry for that listener's
      tunnel and that peer. */
  lemma SessionIsRegistered(t: Server, lid: nat, peer: Peer)
    requires Reachable(t) && lid in t.listeners && peer in t.listeners[lid].sessions
    ensures var id, tunnel := t.listeners[lid].sessions[peer].id, t.listeners[lid].tunnel;
      && id in t.streams && id !in t.pending
      && id in t.active && t.active[id].tunnel == tunnel.id && t.active[id].peer == peer && t.active[id].kind == Udp
      && peer.ip in tunnel.sources
  {
    ReachableTables(t);
    EachOk(t, lid, peer, NO_ID);
    hide TablesOk;
    ReachableLocal(t, t.listeners[lid].sessions[peer].id);
  }

  /** Different peers and different listeners never share a session. */
  lemma SessionsAreDistinct(t: Server, lid: nat, peer: Peer, lid': nat, peer': Peer)
    requires Reachable(t)
    requires lid in t.listeners && peer in t.listeners[lid].sessions
    requires lid' in t.listeners && peer' in t.listeners[lid'].sessions
    requires t.listeners[lid].sessions[peer].id == t.listeners[lid'].sessions[peer'].id
    ensures lid == lid' && peer == peer'
  {
    ReachableTables(t);
    EachOk(t, lid, peer, NO_ID);
    EachOk(t, lid', peer', NO_ID);
  }

  lemma {:induction false} DatagramsMonotone(a: seq<CarrierFrame>, b: seq<CarrierFrame>)
    requires a <= b
    ensures Datagrams(a) <= Datagrams(b)
    decreases |b|
  {
    if a != b {
      DatagramsMonotone(a, b[..|b| - 1]);
    }
  }

  /** Replies: whatever is sent to the peer of a session, in any run, is the payloads of the datagram
      frames that carried this session's own identifier, unchanged, in order and without repetition. */
  lemma {:induction false} PeersGetTheirOwnReplies(ttl: nat, udpTimeout: nat, steps: seq<Step>, t: Server, id: Uuid)
    requires Run(Initial(ttl, udpTimeout), steps, t) && id in t.conns
    ensures t.conns[id].sent <= Datagrams(RoutedTo(steps, id))
  {
    RunAdds(Initial(ttl, udpTimeout), steps, t, id);
    assert RoutedTo(steps, id) == t.conns[id].routed;
    assert Reachable(t);
    ReachableReplies(t, id);
    var done :| Took(t.conns[id], done);
    DatagramsMonotone(done, t.conns[id].routed);
  }

  // ---------------------------------------------------------------- that they are sent

  lemma StepKeepsReplying(s: Server, step: Step, id: Uuid)
    requires Possible(s, step) && step != Task(id, StopReplying)
    requires id in s.conns ==> s.conns[id].replying
    ensures id in Next(s, step).conns ==> Next(s, step).conns[id].replying
  {
    hide Next;
    hide Possible;
    hide MoveNext;
    hide MoveAllowed;
    if id in s.conns {
      StepOnConn(s, step, id);
      NotStopped(s, step, id);
      var p := PartOf(s, step);
      hide PartOf;
      if p.MovePart? && p.id == id {
        ReplyFields(LocalOf(s, id), p.m);
      }
      assert LocalOf(Next(s, step), id).conn == Next(s, step).conns[id];
    } else if id in Next(s, step).conns {
      StepBirths(s, step, id);
      StepIsPart(s, step);
    }
  }

  lemma NotStopped(s: Server, step: Step, id: Uuid)
    requires Possible(s, step) && step != Task(id, StopReplying)
    ensures PartOf(s, step) != MovePart(id, StopReplying)
  {
    hide MoveAllowed;
  }

  lemma {:induction false} RunKeepsReplying(s: Server, steps: seq<Step>, t: Server, id: Uuid)
    requires Run(s, steps, t) && Task(id, StopReplying) !in steps
    requires id in s.conns ==> s.conns[id].replying
    ensures id in t.conns ==> t.conns[id].replying
    decreases |steps|
  {
    hide Next;
    hide Possible;
    if steps != [] {
      assert steps[0] in steps;
      StepKeepsReplying(s, steps[0], id);
      RunKeepsReplying(Next(s, steps[0]), steps[1..], t, id);
    }
  }

  lemma ReplyLocal(l: Local)
    requires IsUdp(l.conn) && l.conn.phase == Listed && l.conn.replying && l.conn.inbox != []
    ensures MoveAllowed(l, Reply)
    ensures var f, c := l.conn.inbox[0], l.conn;
      && MoveNext(l, Reply).conn == (if f.kind == 5 then c.(inbox := c.inbox[1..], sent := c.sent + [f.payload], up := c.up + |f.payload|)
                                     else c.(inbox := c.inbox[1..]))
      && UpBytes(l, Reply) == if f.kind == 5 then |f.payload| else 0
  {
  }

  lemma RouteLocal(l: Local, f: CarrierFrame)
    requires IsUdp(l.conn) && l.conn.phase == Listed && l.conn.replying && l.streamed && |l.conn.inbox| < 64
    ensures MoveAllowed(l, Route(f)) && UpBytes(l, Route(f)) == 0
    ensures MoveNext(l, Route(f)).conn == l.conn.(inbox := l.conn.inbox + [f], routed := l.conn.routed + [f])
  {
  }

  lemma TaskIs(s: Server, id: Uuid, m: Move)
    requires Possible(s, Task(id, m))
    ensures id in s.conns && MoveAllowed(LocalOf(s, id), m)
    ensures var t := Next(s, Task(id, m));
      id in t.conns && t.conns[id] == MoveNext(LocalOf(s, id), m).conn && t.bytesUp == s.bytesUp + UpBytes(LocalOf(s, id), m)
  {
    hide MoveNext;
    hide MoveAllowed;
    hide UpBytes;
    hide RowsOf;
  }

  lemma {:induction false} DatagramsSplit(f: CarrierFrame, fs: seq<CarrierFrame>)
    ensures Datagrams([f] + fs) == (if f.kind == 5 then [f.payload] else []) + Datagrams(fs)
  {
    if fs == [] {
      assert [f] + fs == [f] && [f][..0] == [];
    } else {
      var n := |fs| - 1;
      DatagramsSplit(f, fs[..n]);
      assert ([f] + fs)[..n + 1] == [f] + fs[..n] && ([f] + fs)[n + 1] == fs[n];
      Associate(if f.kind == 5 then [f.payload] else [], Datagrams(fs[..n]), if fs[n].kind == 5 then [fs[n].payload] else []);
    }
  }

  function Replying(id: Uuid, n: nat): seq<Step> {
    if n == 0 then [] else [Task(id, Reply)] + Replying(id, n - 1)
  }

  /** The response task takes what is in its channel, and sends the payloads of the datagram frames. */
  lemma {:induction false} InboxDrains(s: Server, id: Uuid) returns (t: Server)
    requires id in s.conns && IsUdp(s.conns[id]) && s.conns[id].phase == Listed && s.conns[id].replying
    ensures Run(s, Replying(id, |s.conns[id].inbox|), t) && id in t.conns
    ensures t.conns[id].inbox == [] && t.conns[id].sent == s.conns[id].sent + Datagrams(s.conns[id].inbox)
    ensures t.bytesUp == s.bytesUp + Lengths(Datagrams(s.conns[id].inbox))
    decreases |s.conns[id].inbox|
  {
    var inbox := s.conns[id].inbox;
    t := s;
    if inbox == [] {
      Associate(s.conns[id].sent, [], []);
    } else {
      ReplyLocal(LocalOf(s, id));
      assert Possible(s, Task(id, Reply));
      TaskIs(s, id, Reply);
      hide Possible;
      hide Next;
      hide MoveNext;
      hide MoveAllowed;
      hide UpBytes;
      var m := Next(s, Task(id, Reply));
      var first := if inbox[0].kind == 5 then [inbox[0].payload] else [];
      assert m.conns[id].sent == s.conns[id].sent + first && m.conns[id].inbox == inbox[1..];
      t := InboxDrains(m, id);
      assert inbox == [inbox[0]] + inbox[1..];
      DatagramsSplit(inbox[0], inbox[1..]);
      Associate(s.conns[id].sent, first, Datagrams(inbox[1..]));
      LengthsJoin(first, Datagrams(inbox[1..]));
      assert Lengths(first) == if inbox[0].kind == 5 then |inbox[0].payload| else 0 by {
        assert first != [] ==> first[..0] == [];
      }
      var rest := Replying(id, |inbox| - 1);
      assert ([Task(id, Reply)] + rest)[1..] == rest;
    }
  }

  lemma {:induction false} LengthsJoin(a: seq<seq<byte>>, b: seq<seq<byte>>)
    ensures Lengths(a + b) == Lengths(a) + Lengths(b)
  {
    if b == [] {
      assert a + b == a;
    } else {
      var n := |b| - 1;
      LengthsJoin(a, b[..n]);
      assert (a + b)[..|a| + n] == a + b[..n];
    }
  }

  /** Until its response task has ended, a frame that the agent sends on a listed session is taken if the session's
      channel has room, and then, after what is there before it, sent to the peer and counted if it is a datagram. */
  lemma {:induction false} RepliesReachThePeer(ttl: nat, udpTimeout: nat, steps: seq<Step>, s: Server, lid: nat, peer: Peer, f: CarrierFrame)
    returns (t: Server)
    requires Run(Initial(ttl, udpTimeout), steps, s) && lid in s.listeners && peer in s.listeners[lid].sessions
    requires f.id == s.listeners[lid].sessions[peer].id && Task(f.id, StopReplying) !in steps
    requires f.id in s.conns && |s.conns[f.id].inbox| < 64
    ensures Run(s, [Task(f.id, Route(f))] + Replying(f.id, |s.conns[f.id].inbox| + 1), t) && f.id in t.conns
    ensures var more := Datagrams(s.conns[f.id].inbox) + (if f.kind == 5 then [f.payload] else []);
      t.conns[f.id].peer == peer && t.conns[f.id].sent == s.conns[f.id].sent + more && t.bytesUp == s.bytesUp + Lengths(more)
  {
    var id := f.id;
    assert Reachable(s);
    ReachableTables(s);
    EachOk(s, lid, peer, NO_ID);
    ReachableLocal(s, id);
    ListedIsStreamed(LocalOf(s, id));
    hide Reachable;
    hide TablesOk;
    hide LocalOk;
    RunKeepsReplying(Initial(ttl, udpTimeout), steps, s, id);
    hide Initial;
    RouteLocal(LocalOf(s, id), f);
    assert Possible(s, Task(id, Route(f)));
    TaskIs(s, id, Route(f));
    hide Possible;
    hide Next;
    hide MoveNext;
    hide MoveAllowed;
    hide UpBytes;
    var m := Next(s, Task(id, Route(f)));
    var inbox := s.conns[id].inbox;
    assert m.conns[id].inbox == inbox + [f];
    t := InboxDrains(m, id);
    assert (inbox + [f])[..|inbox|] == inbox;
    var rest := Replying(id, |inbox| + 1);
    assert ([Task(id, Route(f))] + rest)[1..] == rest;
    ForwardOnly(m, rest, t, id);
  }

  lemma ListedIsStreamed(l: Local)
    requires LocalOk(l) && l.conn.phase == Listed
    ensures l.streamed
  {
  }

  // ---------------------------------------------------------------- datagrams to the agent

  /** `a` is what is left of `b` when some elements are taken out. */
  predicate Subsequence<T(==)>(a: seq<T>, b: seq<T>)
    decreases |b|
  {
    || a == []
    || (b != [] && ((a[|a| - 1] == b[|b| - 1] && Subsequence(a[..|a| - 1], b[..|b| - 1])) || Subsequence(a, b[..|b| - 1])))
  }

  lemma {:induction false} SubsequenceSnoc<T>(a: seq<T>, b: seq<T>, x: T)
    requires Subsequence(a, b)
    ensures Subsequence(a, b + [x]) && Subsequence(a + [x], b + [x])
  {
    assert (b + [x])[..|b|] == b && (a + [x])[..|a|] == a;
  }

  /** The datagrams that a listener's socket receives from a peer it lets in, in order. */
  function ReceivedIn(step: Step, lid: nat, peer: Peer): seq<seq<byte>> {
    if (step.Hear? || step.AdmitUdp?) && step.lid == lid && step.peer == peer then [step.bytes] else []
  }

  function ReceivedFrom(steps: seq<Step>, lid: nat, peer: Peer): seq<seq<byte>> {
    if steps == [] then [] else ReceivedIn(steps[0], lid, peer) + ReceivedFrom(steps[1..], lid, peer)
  }

  /** Whether the listener still has a datagram of this peer in its hands. */
  predicate InHand(s: Server, lid: nat, peer: Peer) {
    lid in s.listeners && s.listeners[lid].inbound.Some? && s.listeners[lid].inbound.value.peer == peer
  }

  /** `received` is what has come from `peer`; the one in hand has not been passed on yet. */
  ghost predicate HandsOn(s: Server, id: Uuid, lid: nat, peer: Peer, received: seq<seq<byte>>) {
    && (InHand(s, lid, peer) ==> received != [] && received[|received| - 1] == s.listeners[lid].inbound.value.bytes)
    && (id in s.conns && s.conns[id].listener == lid && s.conns[id].peer == peer ==>
          Subsequence(s.conns[id].handed, if InHand(s, lid, peer) then received[..|received| - 1] else received))
  }

  /** What a step does to the datagram in a listener's hands. */
  lemma InboundAfter(s: Server, step: Step, lid: nat, peer: Peer)
    requires Possible(s, step)
    ensures ReceivedIn(step, lid, peer) != [] ==>
              !InHand(s, lid, peer) && InHand(Next(s, step), lid, peer)
              && Next(s, step).listeners[lid].inbound.value.bytes == ReceivedIn(step, lid, peer)[0]
    ensures ReceivedIn(step, lid, peer) == [] && InHand(Next(s, step), lid, peer) ==>
              InHand(s, lid, peer) && Next(s, step).listeners[lid].inbound == s.listeners[lid].inbound
    ensures step.PassOn? ==> step.lid in s.listeners && step.lid in Next(s, step).listeners && Next(s, step).listeners[step.lid].inbound == None
  {
    hide Core;
    hide PartNext;
    hide Moved;
    hide MoveAllowed;
    var p := PartOf(s, step);
    StepIsPart(s, step);
    if p.MovePart? {
      MovedConns(s, p.id, p.m);
    }
    hide MoveNext;
  }

  /** A datagram is passed on under the identifier of its own peer's session, and of no other. */
  lemma PassedByItsListener(s: Server, lid: nat, id: Uuid, bytes: seq<byte>)
    requires TablesOk(s) && Possible(s, PassOn(lid, id, bytes))
    ensures id in s.conns && s.conns[id].listener == lid && s.conns[id].peer == s.listeners[lid].inbound.value.peer
    ensures s.listeners[lid].inbound.value.bytes == bytes
  {
    hide TablesOk;
    hide MoveAllowed;
    EachOk(s, lid, s.listeners[lid].inbound.value.peer, id);
  }

  lemma StepHandsOn(s: Server, step: Step, id: Uuid, lid: nat, peer: Peer, received: seq<seq<byte>>)
    requires TablesOk(s) && Possible(s, step) && HandsOn(s, id, lid, peer, received)
    ensures HandsOn(Next(s, step), id, lid, peer, received + ReceivedIn(step, lid, peer))
  {
    hide TablesOk;
    var t, more := Next(s, step), ReceivedIn(step, lid, peer);
    InboundAfter(s, step, lid, peer);
    if step.PassOn? {
      PassedByItsListener(s, step.lid, step.id, step.bytes);
    }
    hide Possible;
    if id in s.conns {
      StepAddsToOld(s, step, id);
      StepSettles(s, step, id);
      hide Next;
      HandedOn(s, t, step, id, lid, peer, received);
    } else {
      if id in t.conns {
        StepBirths(s, step, id);
        BornHandsNothing(s, step, id);
      }
      hide Next;
      assert more == [] ==> received + more == received;
    }
  }

  lemma BornHandsNothing(s: Server, step: Step, id: Uuid)
    requires Possible(s, step) && id !in s.conns && id in Next(s, step).conns
    ensures Next(s, step).conns[id].handed == []
  {
    StepAdds(s, step, id);
    PartOfTask(s, step, id);
    StepBirths(s, step, id);
    hide Next;
    hide Possible;
  }

  /** The arithmetic of it. */
  lemma HandedOn(s: Server, t: Server, step: Step, id: Uuid, lid: nat, peer: Peer, received: seq<seq<byte>>)
    requires HandsOn(s, id, lid, peer, received) && id in s.conns && id in t.conns
    requires t.conns[id].listener == s.conns[id].listener && t.conns[id].peer == s.conns[id].peer
    requires t.conns[id].handed == s.conns[id].handed + HandedIn(step, id)
    requires var more := ReceivedIn(step, lid, peer);
      && (more != [] ==> !InHand(s, lid, peer) && InHand(t, lid, peer) && t.listeners[lid].inbound.value.bytes == more[0])
      && (more == [] && InHand(t, lid, peer) ==> InHand(s, lid, peer) && t.listeners[lid].inbound == s.listeners[lid].inbound)
    requires HandedIn(step, id) != [] ==>
               && s.conns[id].listener == step.lid && step.lid in s.listeners && s.listeners[step.lid].inbound == Some(Datagram(s.conns[id].peer, step.bytes))
               && !InHand(t, step.lid, s.conns[id].peer)
    ensures HandsOn(t, id, lid, peer, received + ReceivedIn(step, lid, peer))
  {
    var more, c := ReceivedIn(step, lid, peer), s.conns[id];
    if more != [] {
      assert (received + more)[..|received + more| - 1] == received;
      assert c.handed + [] == c.handed;
    } else {
      assert received + more == received;
      if InHand(s, lid, peer) && !InHand(t, lid, peer) && c.listener == lid && c.peer == peer {
        var before, last := received[..|received| - 1], received[|received| - 1];
        assert before + [last] == received;
        SubsequenceSnoc(c.handed, before, last);
      }
      assert c.handed + [] == c.handed;
    }
  }

  lemma {:induction false} RunHandsOn(s: Server, steps: seq<Step>, t: Server, id: Uuid, lid: nat, peer: Peer, received: seq<seq<byte>>)
    requires ServerOk(s) && Run(s, steps, t) && HandsOn(s, id, lid, peer, received)
    ensures HandsOn(t, id, lid, peer, received + ReceivedFrom(steps, lid, peer))
    decreases |steps|
  {
    hide ServerOk;
    hide Next;
    hide Possible;
    hide HandsOn;
    hide ReceivedIn;
    if steps == [] {
      assert received + [] == received;
    } else {
      assert TablesOk(s) by {
        ServerTables(s);
      }
      StepHandsOn(s, steps[0], id, lid, peer, received);
      StepKeepsServerOk(s, steps[0]);
      RunHandsOn(Next(s, steps[0]), steps[1..], t, id, lid, peer, received + ReceivedIn(steps[0], lid, peer));
      Associate(received, ReceivedIn(steps[0], lid, peer), ReceivedFrom(steps[1..], lid, peer));
    }
  }

  /** And the other way: what the agent is handed under the identifier of a session, in any run, is a
      subsequence of what the listener received from this session's own peer, and exactly what is counted
      down for it: unchanged, in order, each datagram at most once, and none of another peer's. */
  lemma {:induction false} AgentsGetTheirPeersDatagrams(ttl: nat, udpTimeout: nat, steps: seq<Step>, t: Server, id: Uuid)
    requires Run(Initial(ttl, udpTimeout), steps, t) && id in t.conns && IsUdp(t.conns[id])
    ensures t.conns[id].handed == HandedTo(steps, id) && t.conns[id].down == Lengths(HandedTo(steps, id))
    ensures Subsequence(HandedTo(steps, id), ReceivedFrom(steps, t.conns[id].listener, t.conns[id].peer))
  {
    var s, c := Initial(ttl, udpTimeout), t.conns[id];
    RunAdds(s, steps, t, id);
    assert HandedTo(steps, id) == c.handed;
    assert Reachable(t);
    ReachableReplies(t, id);
    hide RepliesOk;
    InitialIsOk(ttl, udpTimeout);
    hide ServerOk;
    RunHandsOn(s, steps, t, id, c.listener, c.peer, []);
    var received := ReceivedFrom(steps, c.listener, c.peer);
    assert [] + received == received;
    InHandOrNot(t, id, received);
  }

  lemma {:induction false} InHandOrNot(t: Server, id: Uuid, received: seq<seq<byte>>)
    requires id in t.conns && HandsOn(t, id, t.conns[id].listener, t.conns[id].peer, received)
    ensures Subsequence(t.conns[id].handed, received)
  {
    if InHand(t, t.conns[id].listener, t.conns[id].peer) {
      var before, last := received[..|received| - 1], received[|received| - 1];
      assert before + [last] == received;
      SubsequenceSnoc(t.conns[id].handed, before, last);
    }
  }

  // ---------------------------------------------------------------- idleness

  lemma {:induction false} ClockOfRun(s: Server, steps: seq<Step>, t: Server)
    requires Run(s, steps, t)
    ensures s.now <= t.now && t.udpTimeout == s.udpTimeout
    decreases |steps|
  {
    hide Next;
    hide Possible;
    if steps != [] {
      ClockRuns(s, steps[0]);
      ClockOfRun(Next(s, steps[0]), steps[1..], t);
    }
  }

  /** The session of `peer` at listener `lid` is `id` and has been heard of since `since`. */
  predicate Heard(s: Server, lid: nat, peer: Peer, id: Uuid, since: nat) {
    && lid in s.listeners && peer in s.listeners[lid].sessions
    && s.listeners[lid].sessions[peer].id == id && s.listeners[lid].sessions[peer].lastSeen >= since
  }

  /** The steps that take a session out of its table for other reasons than idleness. */
  predicate Removes(step: Step, lid: nat, peer: Peer) {
    step == Lose(lid, peer) || step == HaltSession(lid, peer)
  }

  /** The tables after a step. */
  lemma SessionsAfter(s: Server, step: Step, lid: nat)
    requires Possible(s, step) && lid in s.listeners
    ensures lid in Next(s, step).listeners
    ensures var x, y := s.listeners[lid].sessions, Next(s, step).listeners[lid].sessions;
      if step == Enlist(lid) then y == x[s.conns[Subject(s, step)].peer := Session(Subject(s, step), s.now)]
      else if step.Hear? && step.lid == lid then y == x[step.peer := x[step.peer].(lastSeen := s.now)]
      else if (step.Evict? || step.Lose? || step.HaltSession?) && step.lid == lid then y == x - {step.peer}
      else y == x
  {
    hide Core;
    hide PartNext;
    hide Moved;
    hide MoveAllowed;
    hide MoveNext;
    var p := PartOf(s, step);
    StepIsPart(s, step);
    if p.MovePart? {
      MovedConns(s, p.id, p.m);
    }
  }

  /** Only an idle session is evicted, and only an unlisted one is entered. */
  lemma WhenTablesChange(s: Server, step: Step)
    requires TablesOk(s) && Possible(s, step)
    ensures step.Evict? ==>
              step.lid in s.listeners && step.peer in s.listeners[step.lid].sessions
              && s.now >= s.listeners[step.lid].sessions[step.peer].lastSeen + s.udpTimeout
    ensures step.Enlist? ==>
              step.lid in s.listeners && Subject(s, step) in s.conns
              && s.conns[Subject(s, step)].peer !in s.listeners[step.lid].sessions
    ensures step.Hear? ==>
              step.lid in s.listeners && step.peer in s.listeners[step.lid].sessions
              && s.listeners[step.lid].sessions[step.peer].lastSeen <= s.now
  {
    hide TablesOk;
    hide CanMove;
    if step.Enlist? {
      EachOk(s, step.lid, Peer(0, 0), NO_ID);
    } else if step.Hear? {
      EachOk(s, step.lid, step.peer, NO_ID);
    }
  }

  lemma StepKeepsHeard(s: Server, step: Step, lid: nat, peer: Peer, id: Uuid, since: nat)
    requires TablesOk(s) && Possible(s, step) && Heard(s, lid, peer, id, since)
    requires !Removes(step, lid, peer) && s.now < since + s.udpTimeout
    ensures Heard(Next(s, step), lid, peer, id, since)
  {
    hide TablesOk;
    SessionsAfter(s, step, lid);
    WhenTablesChange(s, step);
    hide Possible;
    hide Next;
    hide Subject;
  }

  /** Idleness: a session is never evicted before the timeout has passed since its last inbound datagram.
      Whatever else the server does, a session heard of at `since` is still there, with the same
      identifier, at every later time before `since + udpTimeout`, unless its carrier send failed or its
      listener was stopped. */
  lemma {:induction false} SessionSurvives(s: Server, steps: seq<Step>, t: Server, lid: nat, peer: Peer, id: Uuid, since: nat)
    requires TablesOk(s) && Run(s, steps, t) && Heard(s, lid, peer, id, since)
    requires (forall st :: st in steps ==> !Removes(st, lid, peer)) && t.now < since + t.udpTimeout
    ensures Heard(t, lid, peer, id, since)
    decreases |steps|
  {
    hide TablesOk;
    hide Next;
    hide Possible;
    hide Heard;
    hide Removes;
    if steps != [] {
      ClockOfRun(s, steps, t);
      assert steps[0] in steps;
      StepKeepsHeard(s, steps[0], lid, peer, id, since);
      StepKeepsTables(s, steps[0]);
      SessionSurvives(Next(s, steps[0]), steps[1..], t, lid, peer, id, since);
    }
  }

  /** An inbound datagram restarts the clock of its session: whatever happens after it, the session is there
      for the whole timeout, unless its carrier send failed or its listener was stopped. */
  lemma {:induction false} HearingRestarts(s: Server, lid: nat, peer: Peer, bytes: seq<byte>, steps: seq<Step>, t: Server)
    requires Reachable(s) && Possible(s, Hear(lid, peer, bytes)) && Run(Next(s, Hear(lid, peer, bytes)), steps, t)
    requires (forall st :: st in steps ==> !Removes(st, lid, peer)) && t.now < s.now + s.udpTimeout
    ensures Heard(t, lid, peer, s.listeners[lid].sessions[peer].id, s.now)
  {
    hide TablesOk;
    var m := Next(s, Hear(lid, peer, bytes));
    ReachableTables(s);
    StepKeepsTables(s, Hear(lid, peer, bytes));
    assert Heard(m, lid, peer, s.listeners[lid].sessions[peer].id, s.now);
    hide Next;
    hide Possible;
    hide Heard;
    ClockOfRun(m, steps, t);
    SessionSurvives(m, steps, t, lid, peer, s.listeners[lid].sessions[peer].id, s.now);
  }

  // ---------------------------------------------------------------- leaks

  lemma MoveLeaks(l: Local, m: Move)
    requires MoveAllowed(l, m) && KindOk(l.conn)
    ensures Leaks(MoveNext(l, m).conn) == Leaks(l.conn) + (if m.Forget? || m == Unlist(Stopped) then 1 else 0)
  {
    PhaseField(l, m);
    FixedFields(l, m);
    hide MoveNext;
  }

  lemma StepLeaks(s: Server, step: Step, id: Uuid)
    requires ConnsOk(s) && Possible(s, step) && id in s.conns
    ensures id in Next(s, step).conns && Leaks(Next(s, step).conns[id]) >= Leaks(s.conns[id])
    ensures (step.Lose? || step.HaltSession?) && Subject(s, step) == id ==> Leaks(Next(s, step).conns[id]) == Leaks(s.conns[id]) + 1
  {
    hide LocalOk;
    hide Next;
    StepOnConn(s, step, id);
    assert Next(s, step).conns[id] == LocalOf(Next(s, step), id).conn;
    var p := PartOf(s, step);
    assert step.Lose? ==> p == MovePart(Subject(s, step), Forget);
    assert step.HaltSession? ==> p == MovePart(Subject(s, step), Unlist(Stopped));
    hide Possible;
    hide PartOf;
    hide Subject;
    if p.MovePart? && p.id == id {
      assert LocalOk(LocalOf(s, id));
      KindOfLocal(LocalOf(s, id));
      hide KindOk;
      MoveLeaks(LocalOf(s, id), p.m);
    }
    hide MoveNext;
    hide MoveAllowed;
    hide Leaks;
  }

  lemma KindOfLocal(l: Local)
    requires LocalOk(l)
    ensures KindOk(l.conn)
  {
    hide KindOk;
    hide MapsOk;
    hide AcksOk;
    hide BytesOk;
  }

  lemma TotalGrows(s: Server, t: Server, f: Conn -> nat)
    requires forall id :: id in s.conns ==> id in t.conns && f(t.conns[id]) >= f(s.conns[id])
    ensures Total(t, f) >= Total(s, f)
  {
    SumGrows(Over(s.conns, f), Over(t.conns, f));
  }

  /** Sessions dropped after a failed carrier send or by stopping a listener stay in the gauge for ever:
      the number of leaked sessions never goes down. */
  lemma {:induction false} LeaksOnlyGrow(s: Server, steps: seq<Step>, t: Server)
    requires ServerOk(s) && Run(s, steps, t)
    ensures Total(t, Leaks) >= Total(s, Leaks)
    decreases |steps|
  {
    hide ServerOk;
    hide Next;
    hide Possible;
    hide Leaks;
    if steps != [] {
      var m := Next(s, steps[0]);
      assert ConnsOk(s) by {
        ServerConns(s);
      }
      hide ConnsOk;
      forall id | id in s.conns ensures id in m.conns && Leaks(m.conns[id]) >= Leaks(s.conns[id]) {
        StepLeaks(s, steps[0], id);
      }
      TotalGrows(s, m, Leaks);
      StepKeepsServerOk(s, steps[0]);
      LeaksOnlyGrow(m, steps[1..], t);
    }
  }

  /** Once one session has been lost that way, the gauge is above the number of live sessions in every
      later state. */
  lemma {:induction false} GaugeStaysTooHigh(s: Server, step: Step, steps: seq<Step>, t: Server)
    requires Reachable(s) && Possible(s, step) && (step.Lose? || step.HaltSession?)
    requires Run(Next(s, step), steps, t) && Reachable(t)
    ensures t.activeUdp > Entries(t)
  {
    hide Next;
    hide ServerOk;
    ReachableIsOk(s);
    ReachableTables(s);
    ServerConns(s);
    RelistIsOnlyHere(s, step);
    var id, m := Subject(s, step), Next(s, step);
    hide TablesOk;
    hide ConnsOk;
    hide Reachable;
    hide Possible;
    TotalPut(s, m, id, m.conns[id], Leaks);
    StepLeaks(s, step, id);
    StepKeepsServerOk(s, step);
    LeaksOnlyGrow(m, steps, t);
    GaugeCountsLeaks(t);
  }
}
