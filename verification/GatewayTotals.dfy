/** Conservation: byte counters, the UDP gauge, the connection history and the datagrams of UDP sessions. */
module GatewayTotals {
  import opened Bytes
  import opened Protocol
  import opened Sums
  import Pipeline
  import opened Gateway
  import opened GatewaySafety

  function UpOf(c: Conn): nat {
    c.up
  }

  function DownOf(c: Conn): nat {
    c.down
  }

  function Over(conns: map<Uuid, Conn>, f: Conn -> nat): map<Uuid, nat> {
    map id | id in conns :: f(conns[id])
  }

  ghost function Total(s: Server, f: Conn -> nat): nat {
    Sum(Over(s.conns, f))
  }

  /** The counters are the sums over all connections, past and present. */
  ghost predicate SumsOk(s: Server) {
    s.bytesUp == Total(s, UpOf) && s.bytesDown == Total(s, DownOf) && s.activeUdp == Total(s, GaugeOf)
  }

  lemma TotalPut(s: Server, t: Server, id: Uuid, c: Conn, f: Conn -> nat)
    requires t.conns == s.conns[id := c]
    ensures Total(t, f) == Total(s, f) + f(c) - (if id in s.conns then f(s.conns[id]) else 0)
  {
    assert Over(t.conns, f) == Over(s.conns, f)[id := f(c)];
    SumPut(Over(s.conns, f), id, f(c));
  }

  lemma MoveGauges(l: Local, m: Move)
    requires MoveAllowed(l, m) && KindOk(l.conn)
    ensures GaugeOf(MoveNext(l, m).conn) == GaugeOf(l.conn) + (if m == CountUdp then 1 else 0) - (if m == Uncount then 1 else 0)
  {
    PhaseField(l, m);
    FixedFields(l, m);
    hide MoveNext;
  }

  lemma MovedCounters(s: Server, id: Uuid, m: Move)
    requires CanMove(s, id, m)
    ensures var t, l := Moved(s, id, m), LocalOf(s, id);
      && t.conns == s.conns[id := MoveNext(l, m).conn]
      && t.bytesUp == s.bytesUp + UpBytes(l, m) && t.bytesDown == s.bytesDown + DownBytes(m)
      && t.activeUdp == s.activeUdp + (if m == CountUdp then 1 else 0) - (if m == Uncount then 1 else 0)
      && t.history == s.history + RowsOf(l, id, m)
  {
    hide MoveNext;
    hide MoveAllowed;
    hide RowsOf;
    hide UpBytes;
    hide DownBytes;
  }

  lemma MovedKeepsSums(s: Server, id: Uuid, m: Move)
    requires SumsOk(s) && CanMove(s, id, m) && LocalOk(LocalOf(s, id))
    ensures SumsOk(Moved(s, id, m))
  {
    hide MapsOk;
    hide AcksOk;
    hide BytesOk;
    hide KindOk;
    var l, t := LocalOf(s, id), Moved(s, id, m);
    assert KindOk(l.conn);
    hide LocalOk;
    ByteFields(l, m);
    MoveGauges(l, m);
    MovedCounters(s, id, m);
    hide MoveNext;
    hide MoveAllowed;
    hide UpBytes;
    hide DownBytes;
    hide Moved;
    TotalPut(s, t, id, t.conns[id], UpOf);
    TotalPut(s, t, id, t.conns[id], DownOf);
    TotalPut(s, t, id, t.conns[id], GaugeOf);
    hide GaugeOf;
  }

  lemma BornKeepsSums(s: Server, id: Uuid, c: Conn)
    requires SumsOk(s) && PartAllowed(s, BirthPart(id, c))
    ensures SumsOk(Born(s, id, c))
  {
    var t := Born(s, id, c);
    TotalPut(s, t, id, c, UpOf);
    TotalPut(s, t, id, c, DownOf);
    TotalPut(s, t, id, c, GaugeOf);
  }

  /** Every step keeps the counters equal to the sums. */
  lemma StepKeepsSums(s: Server, step: Step)
    requires SumsOk(s) && ConnsOk(s) && Possible(s, step)
    ensures SumsOk(Next(s, step))
  {
    StepIsPart(s, step);
    var p := PartOf(s, step);
    hide Possible;
    hide Next;
    hide PartOf;
    match p {
      case NoPart =>
      case MovePart(id, m) => MovedKeepsSums(s, id, m);
      case BirthPart(id, c) => BornKeepsSums(s, id, c);
    }
    CoreSums(PartNext(s, p), Next(s, step));
  }

  lemma CoreSums(s: Server, t: Server)
    requires SumsOk(s) && Core(s) == Core(t)
    ensures SumsOk(t)
  {
    assert Core(s).conns == Core(t).conns && Core(s).bytesUp == Core(t).bytesUp
      && Core(s).bytesDown == Core(t).bytesDown && Core(s).activeUdp == Core(t).activeUdp;
  }

  // ---------------------------------------------------------------- connection history

  predicate Recorded(c: Conn) {
    c.tunnel.kind == Tcp && c.phase == Closed(Bridged)
  }

  function FinalRow(id: Uuid, c: Conn): Row {
    Row(id, c.tunnel.id, c.up, c.down)
  }

  predicate RowOk(s: Server, r: Row) {
    r.id in s.conns && Recorded(s.conns[r.id]) && r == FinalRow(r.id, s.conns[r.id])
  }

  /** The history holds exactly one row for each closed TCP connection, with its final totals. */
  ghost predicate HistoryOk(s: Server) {
    && (forall r :: r in s.history ==> RowOk(s, r))
    && (forall i, j :: 0 <= i < j < |s.history| ==> s.history[i].id != s.history[j].id)
    && (forall id :: id in s.conns && Recorded(s.conns[id]) ==> FinalRow(id, s.conns[id]) in s.history)
  }

  /** A recorded connection's record never changes again; one becomes recorded only as its row is written. */
  predicate RecordsRight(l: Local, m: Move, id: Uuid)
    requires MoveAllowed(l, m)
  {
    var c := MoveNext(l, m).conn;
    && (Recorded(l.conn) ==> Recorded(c) && FinalRow(id, c) == FinalRow(id, l.conn) && RowsOf(l, id, m) == [])
    && (!Recorded(l.conn) && Recorded(c) ==> RowsOf(l, id, m) == [FinalRow(id, c)])
    && (!Recorded(c) ==> RowsOf(l, id, m) == [])
  }

  lemma MoveRecords(l: Local, m: Move, id: Uuid)
    requires MoveAllowed(l, m) && KindOk(l.conn) && MapsOk(l) && BytesOk(l)
    ensures RecordsRight(l, m, id)
  {
    if m == DropActive {
      DroppingRecords(l, id);
    } else {
      OthersRecord(l, m, id);
    }
    hide RecordsRight;
  }

  lemma DroppingRecords(l: Local, id: Uuid)
    requires MoveAllowed(l, DropActive) && KindOk(l.conn) && MapsOk(l) && BytesOk(l)
    ensures RecordsRight(l, DropActive, id)
  {
    PhaseField(l, DropActive);
    FixedFields(l, DropActive);
    ByteFields(l, DropActive);
    hide MoveNext;
  }

  lemma OthersRecord(l: Local, m: Move, id: Uuid)
    requires MoveAllowed(l, m) && m != DropActive && KindOk(l.conn)
    ensures RecordsRight(l, m, id)
  {
    PhaseField(l, m);
    FixedFields(l, m);
    ByteFields(l, m);
    hide MoveNext;
  }

  lemma MovedKeepsHistory(s: Server, id: Uuid, m: Move)
    requires HistoryOk(s) && CanMove(s, id, m) && LocalOk(LocalOf(s, id))
    ensures HistoryOk(Moved(s, id, m))
  {
    var l, t := LocalOf(s, id), Moved(s, id, m);
    assert KindOk(l.conn) && MapsOk(l) && BytesOk(l) by {
      hide KindOk;
      hide MapsOk;
      hide AcksOk;
      hide BytesOk;
    }
    hide LocalOk;
    MoveRecords(l, m, id);
    MovedCounters(s, id, m);
    hide KindOk;
    hide MapsOk;
    hide BytesOk;
    hide MoveNext;
    hide MoveAllowed;
    hide RowsOf;
    hide Moved;
    hide UpBytes;
    hide DownBytes;
    hide FinalRow;
    hide Recorded;
    HistoryGrows(s, t, id, RowsOf(l, id, m));
  }

  lemma HistoryGrows(s: Server, t: Server, id: Uuid, rows: seq<Row>)
    requires HistoryOk(s) && id in s.conns && id in t.conns
    requires t.conns == s.conns[id := t.conns[id]] && t.history == s.history + rows
    requires var b, c := s.conns[id], t.conns[id];
      && (Recorded(b) ==> Recorded(c) && FinalRow(id, c) == FinalRow(id, b) && rows == [])
      && (!Recorded(b) && Recorded(c) ==> rows == [FinalRow(id, c)])
      && (!Recorded(c) ==> rows == [])
    ensures HistoryOk(t)
  {
    forall r | r in t.history ensures RowOk(t, r) {
      if r in s.history {
        assert RowOk(s, r);
      }
    }
    forall i, j | 0 <= i < j < |t.history| ensures t.history[i].id != t.history[j].id {
      if j == |s.history| {
        assert RowOk(s, s.history[i]);
      }
    }
  }

  lemma StepKeepsHistory(s: Server, step: Step)
    requires HistoryOk(s) && ConnsOk(s) && Possible(s, step)
    ensures HistoryOk(Next(s, step))
  {
    StepIsPart(s, step);
    var p := PartOf(s, step);
    hide Possible;
    hide Next;
    hide PartOf;
    match p {
      case NoPart =>
      case MovePart(id, m) => MovedKeepsHistory(s, id, m);
      case BirthPart(id, c) => BornKeepsHistory(s, id, c);
    }
    CoreHistory(PartNext(s, p), Next(s, step));
  }

  lemma BornKeepsHistory(s: Server, id: Uuid, c: Conn)
    requires HistoryOk(s) && PartAllowed(s, BirthPart(id, c))
    ensures HistoryOk(Born(s, id, c))
  {
    var t := Born(s, id, c);
    forall r | r in t.history ensures RowOk(t, r) {
      assert RowOk(s, r);
    }
  }

  lemma CoreHistory(s: Server, t: Server)
    requires HistoryOk(s) && Core(s) == Core(t)
    ensures HistoryOk(t)
  {
    assert Core(s).conns == Core(t).conns && Core(s).history == Core(t).history;
    forall r | r in t.history ensures RowOk(t, r) {
      assert RowOk(s, r);
    }
  }

  // ---------------------------------------------------------------- datagrams sent back

  ghost predicate AllReplies(s: Server) {
    forall id :: id in s.conns ==> RepliesOk(s.conns[id])
  }

  lemma {:induction false} DatagramsSnoc(fs: seq<CarrierFrame>, f: CarrierFrame)
    ensures Datagrams(fs + [f]) == Datagrams(fs) + (if f.kind == FRAME_DATAGRAM then [f.payload] else [])
  {
    assert (fs + [f])[..|fs|] == fs;
  }

  lemma ReplyKeeps(c: Conn)
    requires RepliesOk(c) && c.replying && c.inbox != []
    ensures RepliesOk(AfterReply(c))
  {
    var done :| Took(c, done);
    var f := c.inbox[0];
    DatagramsSnoc(done, f);
    LengthsSnoc(c.sent, f.payload);
    assert done + c.inbox == (done + [f]) + c.inbox[1..];
    assert Took(AfterReply(c), done + [f]);
  }

  lemma RouteKeeps(c: Conn, f: CarrierFrame)
    requires RepliesOk(c) && |c.inbox| < Pipeline.STREAM_SLOTS
    ensures RepliesOk(c.(inbox := c.inbox + [f], routed := c.routed + [f]))
  {
    var done :| Took(c, done);
    assert done + c.inbox + [f] == done + (c.inbox + [f]);
    assert Took(c.(inbox := c.inbox + [f], routed := c.routed + [f]), done);
  }

  lemma HandKeeps(c: Conn, d: seq<byte>)
    requires RepliesOk(c)
    ensures RepliesOk(c.(handed := c.handed + [d], down := c.down + |d|))
  {
    var done :| Took(c, done);
    LengthsSnoc(c.handed, d);
    assert Took(c.(handed := c.handed + [d], down := c.down + |d|), done);
  }

  /** The moves that touch neither the session channel nor what was sent. */
  lemma OthersKeepReplies(l: Local, m: Move)
    requires MoveAllowed(l, m) && !m.Route? && !m.Reply? && !m.StopReplying?
    ensures var c, d := l.conn, MoveNext(l, m).conn;
      && d.inbox == c.inbox && d.routed == c.routed && d.sent == c.sent && d.replying == c.replying
      && d.tunnel == c.tunnel && (IsUdp(c) ==> d.up == c.up && (m.Hand? || (d.down == c.down && d.handed == c.handed)))
  {
    ReplyFields(l, m);
    FixedFields(l, m);
    ByteFields(l, m);
    hide MoveNext;
  }

  lemma SameReplies(c: Conn, d: Conn)
    requires RepliesOk(c)
    requires d.routed == c.routed && d.sent == c.sent && d.tunnel == c.tunnel
    requires IsUdp(c) ==> d.up == c.up && d.down == c.down && d.handed == c.handed
    requires (d.inbox == c.inbox && d.replying == c.replying) || (d.inbox == [] && !d.replying)
    ensures RepliesOk(d)
  {
    var done :| Took(c, done);
    assert Took(d, done);
  }

  lemma MoveKeepsReplies(l: Local, m: Move)
    requires MoveAllowed(l, m) && RepliesOk(l.conn)
    ensures RepliesOk(MoveNext(l, m).conn)
  {
    hide RepliesOk;
    var c := l.conn;
    if m.Route? {
      RouteRoom(l, m);
      RouteKeeps(c, m.frame);
    } else if m.Reply? {
      ReplyKeeps(c);
    } else if m.Hand? {
      HandKeeps(c, m.datagram);
    } else {
      if !m.StopReplying? {
        OthersKeepReplies(l, m);
      }
      SameReplies(c, MoveNext(l, m).conn);
    }
  }

  lemma RouteRoom(l: Local, m: Move)
    requires MoveAllowed(l, m) && m.Route?
    ensures |l.conn.inbox| < Pipeline.STREAM_SLOTS
  {
  }

  lemma MovedKeepsReplies(s: Server, id: Uuid, m: Move)
    requires AllReplies(s) && CanMove(s, id, m)
    ensures AllReplies(Moved(s, id, m))
  {
    hide RepliesOk;
    hide MoveAllowed;
    hide MoveNext;
    MoveKeepsReplies(LocalOf(s, id), m);
    MovedCounters(s, id, m);
    hide Moved;
    hide UpBytes;
    hide DownBytes;
    hide RowsOf;
  }

  lemma StepKeepsReplies(s: Server, step: Step)
    requires AllReplies(s) && Possible(s, step)
    ensures AllReplies(Next(s, step))
  {
    hide Possible;
    hide Next;
    hide PartOf;
    hide RepliesOk;
    hide MoveAllowed;
    hide Moved;
    StepIsPart(s, step);
    var p, t := PartOf(s, step), Next(s, step);
    match p {
      case NoPart =>
      case MovePart(id, m) => MovedKeepsReplies(s, id, m);
      case BirthPart(id, c) => NewReplies(c);
    }
    assert t.conns == Core(t).conns && PartNext(s, p).conns == Core(PartNext(s, p)).conns;
  }

  lemma NewReplies(c: Conn)
    requires c == NewConn(c.tunnel, c.peer, c.listener, c.ticket)
    ensures RepliesOk(c)
  {
    assert Took(c, []);
  }
}
