/** The server's books over whole runs: byte counters, history rows, the UDP gauge and UDP sessions. */
module GatewayBooks {
  import opened Bytes
  import opened Protocol
  import opened Sums
  import opened Gateway
  import opened GatewaySafety
  import opened GatewayUdp
  import opened GatewayTotals
  import opened GatewayRuns

  // ---------------------------------------------------------------- bytes of one connection

  /** Payload bytes that a step forwards down for connection `id`, up for a TCP or Web connection, the frame
      it routes to it and the datagram it hands to the agent for it. */
  function DownIn(step: Step, id: Uuid): nat {
    if step.Task? && step.id == id then DownBytes(step.m)
    else if step.PassOn? && step.id == id then |step.bytes| else 0
  }

  function UpIn(step: Step, id: Uuid): nat {
    if step.Task? && step.id == id && step.m.CountUp? then step.m.n else 0
  }

  function RoutedIn(step: Step, id: Uuid): seq<CarrierFrame> {
    if step.Task? && step.m.Route? && step.m.frame.id == id then [step.m.frame] else []
  }

  function HandedIn(step: Step, id: Uuid): seq<seq<byte>> {
    if step.PassOn? && step.id == id then [step.bytes] else []
  }

  function Down(steps: seq<Step>, id: Uuid): nat {
    if steps == [] then 0 else DownIn(steps[0], id) + Down(steps[1..], id)
  }

  function Up(steps: seq<Step>, id: Uuid): nat {
    if steps == [] then 0 else UpIn(steps[0], id) + Up(steps[1..], id)
  }

  /** The frames with identifier `id` that the routers put into its channel, in order. */
  function RoutedTo(steps: seq<Step>, id: Uuid): seq<CarrierFrame> {
    if steps == [] then [] else RoutedIn(steps[0], id) + RoutedTo(steps[1..], id)
  }

  /** The datagrams of session `id` that the agent's carrier took, in order. */
  function HandedTo(steps: seq<Step>, id: Uuid): seq<seq<byte>> {
    if steps == [] then [] else HandedIn(steps[0], id) + HandedTo(steps[1..], id)
  }

  function RecordOf(s: Server, id: Uuid): Conn {
    if id in s.conns then s.conns[id] else NewConn(Tunnel(NO_ID, NO_ID, Tcp, {}), Peer(0, 0), 0, 0)
  }

  function StreamUp(c: Conn): nat {
    if IsUdp(c) then 0 else c.up
  }

  lemma MoveAdds(l: Local, m: Move)
    requires MoveAllowed(l, m)
    ensures var c, d := l.conn, MoveNext(l, m).conn;
      && d.down == c.down + DownBytes(m)
      && StreamUp(d) == StreamUp(c) + (if m.CountUp? then m.n else 0)
      && d.routed == c.routed + (if m.Route? then [m.frame] else [])
      && d.handed == c.handed + (if m.Hand? then [m.datagram] else [])
  {
    ByteFields(l, m);
    FixedFields(l, m);
    ReplyFields(l, m);
    hide MoveNext;
  }

  /** What a step adds to a connection's record. */
  predicate Adds(c: Conn, d: Conn, step: Step, id: Uuid) {
    && d.down == c.down + DownIn(step, id)
    && StreamUp(d) == StreamUp(c) + UpIn(step, id)
    && d.routed == c.routed + RoutedIn(step, id)
    && d.handed == c.handed + HandedIn(step, id)
  }

  lemma PartOfTask(s: Server, step: Step, id: Uuid)
    requires Possible(s, step)
    ensures var p := PartOf(s, step);
      if p.MovePart? && p.id == id
      then DownIn(step, id) == DownBytes(p.m) && UpIn(step, id) == (if p.m.CountUp? then p.m.n else 0)
           && RoutedIn(step, id) == (if p.m.Route? then [p.m.frame] else [])
           && HandedIn(step, id) == (if p.m.Hand? then [p.m.datagram] else [])
      else DownIn(step, id) == UpIn(step, id) == 0 && RoutedIn(step, id) == [] && HandedIn(step, id) == []
  {
    hide MoveAllowed;
  }

  lemma StepAddsToOld(s: Server, step: Step, id: Uuid)
    requires Possible(s, step) && id in s.conns
    ensures id in Next(s, step).conns && Adds(s.conns[id], Next(s, step).conns[id], step, id)
  {
    hide Next;
    hide Possible;
    hide PartOf;
    hide MoveNext;
    hide MoveAllowed;
    hide DownIn;
    hide UpIn;
    hide RoutedIn;
    hide HandedIn;
    hide DownBytes;
    hide StreamUp;
    StepOnConn(s, step, id);
    PartOfTask(s, step, id);
    assert Next(s, step).conns[id] == LocalOf(Next(s, step), id).conn;
    var p := PartOf(s, step);
    if p.MovePart? && p.id == id {
      MoveAdds(LocalOf(s, id), p.m);
    }
  }

  lemma StepAdds(s: Server, step: Step, id: Uuid)
    requires Possible(s, step)
    ensures Adds(RecordOf(s, id), RecordOf(Next(s, step), id), step, id)
  {
    hide MoveNext;
    hide MoveAllowed;
    hide Moved;
    if id in s.conns {
      StepAddsToOld(s, step, id);
      hide Adds;
    } else {
      StepIsPart(s, step);
      PartOfTask(s, step, id);
      if id in Next(s, step).conns {
        StepBirths(s, step, id);
        assert Next(s, step).conns[id] == PartOf(s, step).c;
      }
      hide Next;
      hide DownIn;
      hide UpIn;
      hide RoutedIn;
      hide HandedIn;
    }
  }

  lemma {:induction false} RunAdds(s: Server, steps: seq<Step>, t: Server, id: Uuid)
    requires Run(s, steps, t)
    ensures RecordOf(t, id).down == RecordOf(s, id).down + Down(steps, id)
    ensures StreamUp(RecordOf(t, id)) == StreamUp(RecordOf(s, id)) + Up(steps, id)
    ensures RecordOf(t, id).routed == RecordOf(s, id).routed + RoutedTo(steps, id)
    ensures RecordOf(t, id).handed == RecordOf(s, id).handed + HandedTo(steps, id)
    decreases |steps|
  {
    hide Next;
    hide Possible;
    hide RecordOf;
    hide StreamUp;
    hide DownIn;
    hide UpIn;
    hide RoutedIn;
    hide HandedIn;
    if steps == [] {
      assert RecordOf(s, id).routed + [] == RecordOf(s, id).routed;
      assert RecordOf(s, id).handed + [] == RecordOf(s, id).handed;
    } else {
      StepAdds(s, steps[0], id);
      assert Adds(RecordOf(s, id), RecordOf(Next(s, steps[0]), id), steps[0], id);
      RunAdds(Next(s, steps[0]), steps[1..], t, id);
      Associate(RecordOf(s, id).routed, RoutedIn(steps[0], id), RoutedTo(steps[1..], id));
      Associate(RecordOf(s, id).handed, HandedIn(steps[0], id), HandedTo(steps[1..], id));
    }
  }

  // ---------------------------------------------------------------- conservation

  /** The three kinds of connections that the byte counters add up: those whose bridge is open, with an
      `active` entry still to be credited with what is owed; closed ones; and UDP sessions. */
  predicate Live(c: Conn) {
    !IsUdp(c) && HasActive(c.phase)
  }

  function LiveDown(c: Conn): nat { if Live(c) then c.down else 0 }
  function OverDown(c: Conn): nat { if !Live(c) && !IsUdp(c) then c.down else 0 }
  function UdpDown(c: Conn): nat { if IsUdp(c) then Lengths(c.handed) else 0 }
  function LiveUp(c: Conn): nat { if Live(c) then c.up else 0 }
  function OverUp(c: Conn): nat { if !Live(c) && !IsUdp(c) then c.up else 0 }
  function UdpUp(c: Conn): nat { if IsUdp(c) then Lengths(c.sent) else 0 }

  lemma TotalAdds(s: Server, f: Conn -> nat, g: Conn -> nat, h: Conn -> nat)
    requires forall id :: id in s.conns ==> f(s.conns[id]) == g(s.conns[id]) + h(s.conns[id])
    ensures Total(s, f) == Total(s, g) + Total(s, h)
  {
    SumOfTwo(Over(s.conns, f), Over(s.conns, g), Over(s.conns, h));
  }

  function NotLiveDown(c: Conn): nat { OverDown(c) + UdpDown(c) }
  function NotLiveUp(c: Conn): nat { OverUp(c) + UdpUp(c) }

  function LiveIds(s: Server): set<Uuid> {
    set id | id in s.active && s.active[id].kind != Udp
  }

  /** What the `active` entries of TCP and Web connections show, together with what their bridge has
      counted globally but not yet entered there. */
  function ShownDown(s: Server): map<Uuid, nat>
    requires s.active.Keys <= s.conns.Keys
  {
    map id | id in LiveIds(s) :: s.active[id].down + s.conns[id].owedDown
  }

  function ShownUp(s: Server): map<Uuid, nat>
    requires s.active.Keys <= s.conns.Keys
  {
    map id | id in LiveIds(s) :: s.active[id].up + s.conns[id].owedUp
  }

  lemma LiveIsShown(s: Server, id: Uuid)
    requires Reachable(s) && id in s.conns
    ensures id in LiveIds(s) <==> Live(s.conns[id])
    ensures id in LiveIds(s) ==>
              && s.active[id].down + s.conns[id].owedDown == s.conns[id].down
              && s.active[id].up + s.conns[id].owedUp == s.conns[id].up
  {
    ReachableLocal(s, id);
    var l := LocalOf(s, id);
    assert l.act == Get(s.active, id);
    ShownLocal(l);
  }

  lemma ShownLocal(l: Local)
    requires LocalOk(l)
    ensures l.act.Some? && l.act.value.kind != Udp <==> Live(l.conn)
    ensures Live(l.conn) ==>
              l.act.value.up + l.conn.owedUp == l.conn.up && l.act.value.down + l.conn.owedDown == l.conn.down
  {
    hide AcksOk;
    hide KindOk;
  }

  /** `shown` lists the live connections' share of the total of `f`. */
  lemma {:induction false} LiveSum(s: Server, shown: map<Uuid, nat>, f: Conn -> nat)
    requires shown.Keys <= s.conns.Keys
    requires forall id :: id in s.conns ==> f(s.conns[id]) == if id in shown then shown[id] else 0
    ensures Sum(shown) == Total(s, f)
  {
    var all := Over(s.conns, f);
    SumDropsZeros(all, shown.Keys);
    assert shown == map k | k in shown.Keys :: all[k];
  }

  lemma LiveSums(s: Server)
    requires Reachable(s)
    ensures KeysOk(s) && Sum(ShownDown(s)) == Total(s, LiveDown) && Sum(ShownUp(s)) == Total(s, LiveUp)
  {
    ReachableLocal(s, NO_ID);
    hide Reachable;
    hide Live;
    forall id | id in s.conns
      ensures LiveDown(s.conns[id]) == if id in ShownDown(s) then ShownDown(s)[id] else 0
      ensures LiveUp(s.conns[id]) == if id in ShownUp(s) then ShownUp(s)[id] else 0
    {
      LiveIsShown(s, id);
    }
    hide LiveDown;
    hide LiveUp;
    LiveSum(s, ShownDown(s), LiveDown);
    LiveSum(s, ShownUp(s), LiveUp);
  }

  lemma UdpBytesAreDatagrams(t: Server, id: Uuid)
    requires Reachable(t) && id in t.conns
    ensures UpOf(t.conns[id]) == LiveUp(t.conns[id]) + NotLiveUp(t.conns[id])
    ensures DownOf(t.conns[id]) == LiveDown(t.conns[id]) + NotLiveDown(t.conns[id])
  {
    ReachableReplies(t, id);
  }

  lemma ReachableReplies(t: Server, id: Uuid)
    requires Reachable(t) && id in t.conns
    ensures RepliesOk(t.conns[id])
  {
    hide RepliesOk;
    hide ConnsOk;
    hide CallsOk;
    hide TablesOk;
    hide SumsOk;
    hide HistoryOk;
    ReachableIsOk(t);
  }

  lemma ReachableSums(t: Server)
    requires Reachable(t)
    ensures SumsOk(t)
  {
    hide SumsOk;
    ReachableIsOk(t);
  }

  /** Byte conservation: in every reachable state the global counters are what the live TCP and Web
      connections show and are still owed, plus the totals of the closed ones, plus for each UDP session the
      lengths of the datagrams handed to its agent and of those sent to its peer. */
  lemma BytesAreConserved(t: Server)
    requires Reachable(t)
    ensures KeysOk(t)
    ensures t.bytesDown == Sum(ShownDown(t)) + Total(t, OverDown) + Total(t, UdpDown)
    ensures t.bytesUp == Sum(ShownUp(t)) + Total(t, OverUp) + Total(t, UdpUp)
  {
    ReachableSums(t);
    LiveSums(t);
    forall id | id in t.conns
      ensures UpOf(t.conns[id]) == LiveUp(t.conns[id]) + NotLiveUp(t.conns[id])
      ensures DownOf(t.conns[id]) == LiveDown(t.conns[id]) + NotLiveDown(t.conns[id])
    {
      UdpBytesAreDatagrams(t, id);
    }
    hide Reachable;
    hide Total;
    hide ShownDown;
    hide ShownUp;
    TotalAdds(t, DownOf, LiveDown, NotLiveDown);
    TotalAdds(t, NotLiveDown, OverDown, UdpDown);
    TotalAdds(t, UpOf, LiveUp, NotLiveUp);
    TotalAdds(t, NotLiveUp, OverUp, UdpUp);
  }

  /** History: a run submits at most one row per connection, only for TCP connections whose bridge has
      ended, and one for each of those, carrying everything the run forwarded for it. */
  lemma {:induction false} HistoryIsFinal(ttl: nat, udpTimeout: nat, steps: seq<Step>, t: Server)
    requires Run(Initial(ttl, udpTimeout), steps, t)
    ensures forall i, j :: 0 <= i < j < |t.history| ==> t.history[i].id != t.history[j].id
    ensures forall r :: r in t.history ==>
              && r.id in t.conns && t.conns[r.id].tunnel.kind == Tcp && t.conns[r.id].phase == Closed(Bridged)
              && r == Row(r.id, t.conns[r.id].tunnel.id, Up(steps, r.id), Down(steps, r.id))
    ensures forall id :: id in t.conns && t.conns[id].tunnel.kind == Tcp && t.conns[id].phase == Closed(Bridged) ==>
              Row(id, t.conns[id].tunnel.id, Up(steps, id), Down(steps, id)) in t.history
  {
    assert Reachable(t);
    ReachableHistory(t);
    forall id | id in t.conns && Recorded(t.conns[id])
      ensures FinalRow(id, t.conns[id]) == Row(id, t.conns[id].tunnel.id, Up(steps, id), Down(steps, id))
    {
      hide HistoryOk;
      RunAdds(Initial(ttl, udpTimeout), steps, t, id);
    }
    hide Reachable;
    hide FinalRow;
    forall r | r in t.history ensures RowOk(t, r) {
    }
  }

  lemma ReachableHistory(t: Server)
    requires Reachable(t)
    ensures HistoryOk(t)
  {
    hide HistoryOk;
    ReachableIsOk(t);
  }

  // ---------------------------------------------------------------- UDP sessions and their gauge

  function Listings(c: Conn): nat { if c.phase == Listed then 1 else 0 }

  /** Counted sessions that no table holds and no step will ever subtract. */
  function Leaks(c: Conn): nat {
    if IsUdp(c) && (c.phase == Forgotten || c.phase == Closing(Stopped) || c.phase == Departing(Stopped) || c.phase == Closed(Stopped))
    then 1 else 0
  }

  /** Counted sessions that are being opened or evicted right now. */
  function Transits(c: Conn): nat {
    if IsUdp(c) && (c.phase == Counted || c.phase == Opened || c.phase == Closing(Evicted) || c.phase == Departing(Evicted)
                    || c.phase == Uncounting)
    then 1 else 0
  }

  function LeaksAndTransits(c: Conn): nat { Leaks(c) + Transits(c) }

  function SizesIn(listeners: map<nat, Listener>): map<nat, nat> {
    map lid | lid in listeners :: |listeners[lid].sessions|
  }

  function Sizes(s: Server): map<nat, nat> {
    SizesIn(s.listeners)
  }

  /** The number of table entries of all listeners together. */
  ghost function Entries(s: Server): nat {
    Sum(Sizes(s))
  }

  lemma TotalSame(s: Server, t: Server, f: Conn -> nat)
    requires forall id :: id in s.conns ==> id in t.conns && f(t.conns[id]) == f(s.conns[id])
    requires forall id :: id in t.conns && id !in s.conns ==> f(t.conns[id]) == 0
    ensures Total(t, f) == Total(s, f)
  {
    var all := Over(t.conns, f);
    SumDropsZeros(all, s.conns.Keys);
    assert Over(s.conns, f) == map k | k in s.conns.Keys :: all[k];
  }

  lemma PlainSizes(s: Server, step: Step)
    requires Possible(s, step) && !Relists(step)
    ensures Entries(Next(s, step)) == Entries(s) && Total(Next(s, step), Listings) == Total(s, Listings)
  {
    var t := Next(s, step);
    forall id | id in s.conns ensures id in t.conns && Listings(t.conns[id]) == Listings(s.conns[id]) {
      StepListing(s, step, id);
      hide Next;
      hide Possible;
    }
    forall id | id in t.conns && id !in s.conns ensures Listings(t.conns[id]) == 0 {
      StepBirths(s, step, id);
      hide Next;
      hide Possible;
    }
    SizesAfter(s, step);
    hide Next;
    hide Possible;
    TotalSame(s, t, Listings);
  }

  lemma ListenAdds(s: Server, lid: nat, tunnel: Tunnel)
    requires Possible(s, Listen(lid, tunnel))
    ensures lid !in s.listeners && Next(s, Listen(lid, tunnel)).listeners == s.listeners[lid := Listener(tunnel, true, None, map[], None)]
  {
    hide Moved;
  }

  lemma NewListenerIsEmpty(s: Server, t: Server, lid: nat, x: Listener)
    requires lid !in s.listeners && t.listeners == s.listeners[lid := x] && x.sessions == map[]
    ensures Entries(t) == Entries(s)
  {
    OneMoreSize(s.listeners, lid, x);
    SumPut(Sizes(s), lid, |x.sessions|);
  }

  lemma OneMoreSize(listeners: map<nat, Listener>, lid: nat, x: Listener)
    ensures SizesIn(listeners[lid := x]) == SizesIn(listeners)[lid := |x.sessions|]
  {
  }

  lemma SameSizes(s: Server, t: Server)
    requires t.listeners.Keys == s.listeners.Keys
    requires forall lid :: lid in s.listeners ==> |t.listeners[lid].sessions| == |s.listeners[lid].sessions|
    ensures Entries(t) == Entries(s)
  {
    assert Sizes(t) == Sizes(s);
  }

  lemma SizesAfter(s: Server, step: Step)
    requires Possible(s, step) && !Relists(step)
    ensures Entries(Next(s, step)) == Entries(s)
  {
    hide Entries;
    hide Possible;
    hide Next;
    if step.Listen? {
      ListenAdds(s, step.lid, step.tunnel);
      NewListenerIsEmpty(s, Next(s, step), step.lid, Listener(step.tunnel, true, None, map[], None));
    } else {
      SizesKept(s, step);
      SameSizes(s, Next(s, step));
    }
  }

  lemma SizesKept(s: Server, step: Step)
    requires Possible(s, step) && !Relists(step) && !step.Listen?
    ensures var t := Next(s, step);
      && t.listeners.Keys == s.listeners.Keys
      && forall lid :: lid in s.listeners ==> t.listeners[lid].sessions.Keys == s.listeners[lid].sessions.Keys
    ensures forall lid :: lid in s.listeners ==> |Next(s, step).listeners[lid].sessions| == |s.listeners[lid].sessions|
  {
    var t := Next(s, step);
    if step.AdmitUdp? {
    } else {
      PlainListeners(s, step);
    }
    hide Next;
    hide Possible;
    forall lid | lid in s.listeners ensures |t.listeners[lid].sessions| == |s.listeners[lid].sessions| {
      assert |t.listeners[lid].sessions| == |t.listeners[lid].sessions.Keys|;
      assert |s.listeners[lid].sessions| == |s.listeners[lid].sessions.Keys|;
    }
  }

  lemma RelistSizes(s: Server, step: Step)
    requires TablesOk(s) && Possible(s, step) && Relists(step)
    requires Entries(s) == Total(s, Listings)
    ensures Entries(Next(s, step)) == Total(Next(s, step), Listings)
  {
    hide TablesOk;
    hide Next;
    hide Possible;
    hide Subject;
    hide Total;
    hide Entries;
    RelistIsOnlyHere(s, step);
    RelistTable(s, step);
    OneListing(s, Next(s, step), step.lid, Subject(s, step));
    OneSize(s, Next(s, step), step.lid, Subject(s, step));
    hide OnlyHere;
  }

  lemma OneListing(s: Server, t: Server, lid: nat, id: Uuid)
    requires OnlyHere(s, t, lid, id)
    ensures Total(t, Listings) == Total(s, Listings) + Listings(t.conns[id]) - Listings(s.conns[id])
  {
    TotalPut(s, t, id, t.conns[id], Listings);
  }

  lemma OneSize(s: Server, t: Server, lid: nat, id: Uuid)
    requires OnlyHere(s, t, lid, id)
    ensures Entries(t) == Entries(s) + |t.listeners[lid].sessions| - |s.listeners[lid].sessions|
  {
    var n := |t.listeners[lid].sessions|;
    SumPut(Sizes(s), lid, n);
    assert t.listeners == s.listeners[lid := t.listeners[lid]];
    assert Sizes(t) == Sizes(s)[lid := n];
  }

  lemma SizeOf<K, V>(m: map<K, V>, n: map<K, V>, k: K)
    ensures n.Keys == m.Keys + {k} && k !in m ==> |n| == |m| + 1
    ensures n.Keys == m.Keys - {k} && k in m ==> |n| + 1 == |m|
  {
    assert |m| == |m.Keys| && |n| == |n.Keys|;
  }

  lemma RelistTable(s: Server, step: Step)
    requires TablesOk(s) && Possible(s, step) && Relists(step)
    ensures step.lid in s.listeners && step.lid in Next(s, step).listeners && Subject(s, step) in s.conns
    ensures var n, n' := |s.listeners[step.lid].sessions|, |Next(s, step).listeners[step.lid].sessions|;
      if step.Enlist? then n' == n + 1 && s.conns[Subject(s, step)].phase != Listed
      else n' + 1 == n && s.conns[Subject(s, step)].phase == Listed
  {
    RelistKeys(s, step);
    RelistIsOnlyHere(s, step);
    hide Next;
    hide TablesOk;
    hide OnlyHere;
    EachOk(s, step.lid, if step.Enlist? then Peer(0, 0) else step.peer, Subject(s, step));
    var x, y := s.listeners[step.lid].sessions, Next(s, step).listeners[step.lid].sessions;
    SizeOf(x, y, if step.Enlist? then s.conns[Subject(s, step)].peer else step.peer);
  }

  lemma RelistKeys(s: Server, step: Step)
    requires Possible(s, step) && Relists(step)
    ensures step.lid in s.listeners && step.lid in Next(s, step).listeners && Subject(s, step) in s.conns
    ensures var x, y := s.listeners[step.lid].sessions.Keys, Next(s, step).listeners[step.lid].sessions.Keys;
      if step.Enlist? then y == x + {s.conns[Subject(s, step)].peer}
      else step.peer in x && y == x - {step.peer}
  {
    hide Moved;
    hide MoveAllowed;
  }

  lemma {:induction false} RunKeepsSizes(s: Server, steps: seq<Step>, t: Server)
    requires ServerOk(s) && Run(s, steps, t) && Entries(s) == Total(s, Listings)
    ensures Entries(t) == Total(t, Listings)
    decreases |steps|
  {
    hide ServerOk;
    hide Next;
    hide Possible;
    if steps != [] {
      assert TablesOk(s) by {
        ServerTables(s);
      }
      if Relists(steps[0]) {
        RelistSizes(s, steps[0]);
      } else {
        PlainSizes(s, steps[0]);
      }
      StepKeepsServerOk(s, steps[0]);
      RunKeepsSizes(Next(s, steps[0]), steps[1..], t);
    }
  }

  /** The UDP gauge: it is the number of table entries, plus the sessions leaked by a failed carrier send
      or by stopping their listener, plus those just being opened or evicted. So it never drops below
      zero, and it is the number of live sessions exactly when nothing has leaked and none is in transit. */
  lemma GaugeCountsLeaks(t: Server)
    requires Reachable(t)
    ensures t.activeUdp == Entries(t) + Total(t, Leaks) + Total(t, Transits)
    ensures t.activeUdp >= 0
    ensures t.activeUdp == Entries(t) <==> Total(t, Leaks) == 0 && Total(t, Transits) == 0
  {
    var ttl: nat, udpTimeout: nat, steps :| Run(Initial(ttl, udpTimeout), steps, t);
    hide ServerOk;
    var s := Initial(ttl, udpTimeout);
    InitialIsOk(ttl, udpTimeout);
    assert Entries(s) == Total(s, Listings) by {
      assert Sizes(s) == map[] && Over(s.conns, Listings) == map[];
    }
    RunKeepsSizes(s, steps, t);
    ReachableSums(t);
    forall id | id in t.conns ensures GaugeOf(t.conns[id]) == Listings(t.conns[id]) + LeaksAndTransits(t.conns[id]) {
      GaugeSplits(t, id);
    }
    hide Reachable;
    hide Run;
    TotalAdds(t, GaugeOf, Listings, LeaksAndTransits);
    TotalAdds(t, LeaksAndTransits, Leaks, Transits);
  }

  lemma GaugeSplits(t: Server, id: Uuid)
    requires Reachable(t) && id in t.conns
    ensures GaugeOf(t.conns[id]) == Listings(t.conns[id]) + LeaksAndTransits(t.conns[id])
  {
    ReachableLocal(t, id);
    hide Reachable;
    assert KindOk(LocalOf(t, id).conn) by {
      hide KindOk;
      hide MapsOk;
      hide AcksOk;
      hide BytesOk;
    }
    hide LocalOk;
  }
}
