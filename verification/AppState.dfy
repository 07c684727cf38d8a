/** The server's connection handling as code: the shared state, the acknowledgement, the hourly cleanup and
    the two stretches of `accept_public_connection` before and after it waits for the agent's answer. Each
    method is a run of the transition system in `Gateway`, so everything proved about runs holds of it. */
module AppState {
  import opened Bytes
  import opened Protocol
  import opened Gateway
  import opened GatewaySafety
  import opened GatewayTotals
  import opened GatewayRuns
  import opened GatewayTickets
  import opened BridgeLoops
  import Pipeline

  datatype Opening = Denied | Offline | Registered | Unsent | Sent

  // ---------------------------------------------------------------- runs

  lemma {:induction false} RunsOne(s: Server, step: Step)
    requires Possible(s, step)
    ensures Run(s, [step], Next(s, step))
  {
    hide Next;
    hide Possible;
    assert [step][1..] == [];
    assert Run(Next(s, step), [], Next(s, step));
  }

  lemma {:induction false} RunThen(s: Server, steps: seq<Step>, t: Server, step: Step)
    requires Run(s, steps, t) && Possible(t, step)
    ensures Run(s, steps + [step], Next(t, step))
    decreases |steps|
  {
    hide Next;
    hide Possible;
    if steps == [] {
      assert steps + [step] == [step];
      RunsOne(s, step);
    } else {
      RunThen(Next(s, steps[0]), steps[1..], t, step);
      assert (steps + [step])[1..] == steps[1..] + [step] && (steps + [step])[0] == steps[0];
    }
  }

  /** A task's move on the maps, as the code makes it: only what changes is written. */
  lemma MoveIs(s: Server, id: Uuid, m: Move)
    requires CanMove(s, id, m)
    ensures var l, l' := LocalOf(s, id), MoveNext(LocalOf(s, id), m);
      Moved(s, id, m) == s.(
        conns := s.conns[id := l'.conn],
        pending := if l'.pend == l.pend then s.pending else Set(s.pending, id, l'.pend),
        streams := if l'.streamed == l.streamed then s.streams else if l'.streamed then s.streams + {id} else s.streams - {id},
        active := if l'.act == l.act then s.active else Set(s.active, id, l'.act),
        bytesUp := s.bytesUp + UpBytes(l, m), bytesDown := s.bytesDown + DownBytes(m),
        activeUdp := if m == CountUdp then s.activeUdp + 1 else if m == Uncount then s.activeUdp - 1 else s.activeUdp,
        history := s.history + RowsOf(l, id, m))
  {
    hide MoveNext;
    hide MoveAllowed;
    hide RowsOf;
    hide UpBytes;
    hide DownBytes;
    SetSame(s.pending, id);
    SetSame(s.active, id);
    assert id in s.streams ==> s.streams + {id} == s.streams;
    assert id !in s.streams ==> s.streams - {id} == s.streams;
  }

  lemma {:induction false} RunsNone(s: Server)
    ensures Run(s, [], s)
  {
  }

  /** A run, one task move longer. */
  lemma {:induction false} Extend(s: Server, steps: seq<Step>, t: Server, id: Uuid, m: Move)
    requires Run(s, steps, t) && Possible(t, Task(id, m))
    ensures Run(s, steps + [Task(id, m)], Moved(t, id, m))
  {
    RunThen(s, steps, t, Task(id, m));
    hide Run;
    hide Moved;
  }

  lemma {:induction false} RunsJoin(s: Server, s1: seq<Step>, t: Server, s2: seq<Step>, u: Server)
    requires Run(s, s1, t) && Run(t, s2, u)
    ensures Run(s, s1 + s2, u)
    decreases |s1|
  {
    hide Next;
    hide Possible;
    if s1 == [] {
      assert s1 + s2 == s2;
    } else {
      RunsJoin(Next(s, s1[0]), s1[1..], t, s2, u);
      assert (s1 + s2)[1..] == s1[1..] + s2 && (s1 + s2)[0] == s1[0];
    }
  }

  /** A bridge is open for `id`, with everything counted also credited. */
  predicate Bridging(s: Server, id: Uuid) {
    && id in s.conns && s.conns[id].phase == Opened && !IsUdp(s.conns[id]) && id in s.active
    && s.conns[id].owedUp == 0 && s.conns[id].owedDown == 0
  }

  /** The state with one connection's record and active entry replaced, and the byte counters. */
  function Put(s: Server, id: Uuid, up: nat, down: nat, a: Active, c: Conn): Server {
    s.(bytesUp := up, bytesDown := down, active := s.active[id := a], conns := s.conns[id := c])
  }

  function WithDown(s: Server, id: Uuid, n: nat): Server
    requires id in s.conns && id in s.active
  {
    var a, c := s.active[id], s.conns[id];
    Put(s, id, s.bytesUp, s.bytesDown + n, a.(down := a.down + n), c.(down := c.down + n))
  }

  function WithUp(s: Server, id: Uuid, n: nat): Server
    requires id in s.conns && id in s.active
  {
    var a, c := s.active[id], s.conns[id];
    Put(s, id, s.bytesUp + n, s.bytesDown, a.(up := a.up + n), c.(up := c.up + n))
  }

  lemma PutTwice(s: Server, id: Uuid, u: nat, d: nat, a: Active, c: Conn, u': nat, d': nat, a': Active, c': Conn)
    ensures Put(Put(s, id, u, d, a, c), id, u', d', a', c') == Put(s, id, u', d', a', c')
  {
  }

  lemma PutSame(s: Server, id: Uuid)
    requires id in s.conns && id in s.active
    ensures Put(s, id, s.bytesUp, s.bytesDown, s.active[id], s.conns[id]) == s
  {
    assert s.active[id := s.active[id]] == s.active && s.conns[id := s.conns[id]] == s.conns;
  }

  /** A counting move, as a replacement. */
  lemma CountingMove(s: Server, id: Uuid, m: Move, a: Active, c: Conn)
    requires CanMove(s, id, m) && id in s.active && (m.CountUp? || m.CountDown? || m.CreditUp? || m.CreditDown?)
    requires MoveNext(LocalOf(s, id), m) == LocalOf(s, id).(act := Some(a), conn := c)
    ensures Moved(s, id, m) == Put(s, id, s.bytesUp + UpBytes(LocalOf(s, id), m), s.bytesDown + DownBytes(m), a, c)
  {
    MoveIs(s, id, m);
    hide Moved;
    hide MoveNext;
    hide MoveAllowed;
    Associate(s.history, [], []);
    assert s.active[id := s.active[id]] == s.active;
  }

  lemma PutReads(s: Server, id: Uuid, u: nat, d: nat, a: Active, c: Conn)
    requires id in s.conns && id in s.active
    ensures var t := Put(s, id, u, d, a, c);
      && id in t.conns && id in t.active && t.conns[id] == c && t.active[id] == a && t.bytesUp == u && t.bytesDown == d
      && LocalOf(t, id) == LocalOf(s, id).(act := Some(a), conn := c)
  {
  }

  lemma LocalDown(l: Local, n: nat)
    requires l.conn.phase == Opened && !IsUdp(l.conn) && l.act.Some? && l.conn.owedDown == 0
    ensures var c, a := l.conn, l.act.value;
      var l1 := l.(conn := c.(down := c.down + n, owedDown := n));
      && MoveAllowed(l, CountDown(n)) && MoveNext(l, CountDown(n)) == l1
      && MoveAllowed(l1, CreditDown)
      && MoveNext(l1, CreditDown) == l.(act := Some(a.(down := a.down + n)), conn := c.(down := c.down + n))
  {
  }

  lemma LocalUp(l: Local, n: nat)
    requires l.conn.phase == Opened && !IsUdp(l.conn) && l.act.Some? && l.conn.owedUp == 0
    ensures var c, a := l.conn, l.act.value;
      var l1 := l.(conn := c.(up := c.up + n, owedUp := n));
      && MoveAllowed(l, CountUp(n)) && MoveNext(l, CountUp(n)) == l1
      && MoveAllowed(l1, CreditUp)
      && MoveNext(l1, CreditUp) == l.(act := Some(a.(up := a.up + n)), conn := c.(up := c.up + n))
  {
  }

  /** Counting downstream bytes: the global counter first, then the connection's own entry. */
  lemma {:induction false} CountingDown(s: Server, id: Uuid, n: nat)
    requires Bridging(s, id)
    ensures Run(s, [Task(id, CountDown(n)), Task(id, CreditDown)], WithDown(s, id, n))
  {
    hide Moved;
    hide Run;
    var a, c := s.active[id], s.conns[id];
    var c1 := c.(down := c.down + n, owedDown := n);
    var t := Put(s, id, s.bytesUp, s.bytesDown + n, a, c1);
    LocalDown(LocalOf(s, id), n);
    CountingMove(s, id, CountDown(n), a, c1);
    PutReads(s, id, s.bytesUp, s.bytesDown + n, a, c1);
    hide Put;
    hide MoveNext;
    hide MoveAllowed;
    CreditingDown(s, id, n, t);
    TwoMoves(s, id, CountDown(n), CreditDown);
  }

  lemma CreditingDown(s: Server, id: Uuid, n: nat, t: Server)
    requires Bridging(s, id)
    requires t == Put(s, id, s.bytesUp, s.bytesDown + n, s.active[id], s.conns[id].(down := s.conns[id].down + n, owedDown := n))
    ensures CanMove(t, id, CreditDown) && Moved(t, id, CreditDown) == WithDown(s, id, n)
  {
    hide Moved;
    hide Put;
    var a, c := s.active[id], s.conns[id];
    var a2, c1, c2 := a.(down := a.down + n), c.(down := c.down + n, owedDown := n), c.(down := c.down + n);
    LocalDown(LocalOf(s, id), n);
    hide MoveNext;
    hide MoveAllowed;
    PutReads(s, id, s.bytesUp, s.bytesDown + n, a, c1);
    CountingMove(t, id, CreditDown, a2, c2);
    PutTwice(s, id, s.bytesUp, s.bytesDown + n, a, c1, s.bytesUp, s.bytesDown + n, a2, c2);
  }

  lemma {:induction false} TwoMoves(s: Server, id: Uuid, m: Move, k: Move)
    requires CanMove(s, id, m) && CanMove(Moved(s, id, m), id, k)
    requires OwnMove(m) && OwnMove(k) && !m.AddPending? && !k.AddPending? && !m.Route? && !k.Route?
    ensures Run(s, [Task(id, m), Task(id, k)], Moved(Moved(s, id, m), id, k))
  {
    hide Moved;
    RunsOne(s, Task(id, m));
    assert Next(s, Task(id, m)) == Moved(s, id, m);
    hide Next;
    Extend(s, [Task(id, m)], Moved(s, id, m), id, k);
    assert [Task(id, m)] + [Task(id, k)] == [Task(id, m), Task(id, k)];
    hide Run;
  }

  lemma {:induction false} CountingUp(s: Server, id: Uuid, n: nat)
    requires Bridging(s, id)
    ensures Run(s, [Task(id, CountUp(n)), Task(id, CreditUp)], WithUp(s, id, n))
  {
    hide Moved;
    hide Run;
    var a, c := s.active[id], s.conns[id];
    var c1 := c.(up := c.up + n, owedUp := n);
    var t := Put(s, id, s.bytesUp + n, s.bytesDown, a, c1);
    LocalUp(LocalOf(s, id), n);
    CountingMove(s, id, CountUp(n), a, c1);
    PutReads(s, id, s.bytesUp + n, s.bytesDown, a, c1);
    hide Put;
    hide MoveNext;
    hide MoveAllowed;
    CreditingUp(s, id, n, t);
    TwoMoves(s, id, CountUp(n), CreditUp);
  }

  lemma CreditingUp(s: Server, id: Uuid, n: nat, t: Server)
    requires Bridging(s, id)
    requires t == Put(s, id, s.bytesUp + n, s.bytesDown, s.active[id], s.conns[id].(up := s.conns[id].up + n, owedUp := n))
    ensures CanMove(t, id, CreditUp) && Moved(t, id, CreditUp) == WithUp(s, id, n)
  {
    hide Moved;
    hide Put;
    var a, c := s.active[id], s.conns[id];
    var a2, c1, c2 := a.(up := a.up + n), c.(up := c.up + n, owedUp := n), c.(up := c.up + n);
    LocalUp(LocalOf(s, id), n);
    hide MoveNext;
    hide MoveAllowed;
    PutReads(s, id, s.bytesUp + n, s.bytesDown, a, c1);
    CountingMove(t, id, CreditUp, a2, c2);
    PutTwice(s, id, s.bytesUp + n, s.bytesDown, a, c1, s.bytesUp + n, s.bytesDown, a2, c2);
  }

  ghost function Answered(c: Conn, ack: Ack): Conn {
    var d := c.(acks := c.acks + [ack]);
    if Hears(c.phase) then d.(answer := Some(ack.accepted)) else d
  }

  lemma Checking(s: Server, call: nat, id: Uuid, ack: Ack)
    requires call !in s.calls && id in s.pending && TicketMatches(s.pending[id], ack.agent, ack.ticket, s.now) && ack.at == s.now
    ensures var check := Check(call, id, ack.agent, ack.ticket, ack.accepted);
      Possible(s, check) && Next(s, check) == s.(calls := s.calls[call := Call(id, ack, Checked)])
  {
  }

  lemma Removing(s: Server, call: nat, id: Uuid, ack: Ack)
    requires KeysOk(s) && call in s.calls && s.calls[call] == Call(id, ack, Checked) && id in s.pending
    ensures Possible(s, Remove(call))
    ensures Next(s, Remove(call)) == s.(calls := s.calls[call := Call(id, ack, Removed)], pending := s.pending - {id},
                                        conns := s.conns[id := s.conns[id].(acks := s.conns[id].acks + [ack])])
  {
    MoveIs(s, id, Consume(ack));
    assert Next(s, Remove(call)) == Moved(s, id, Consume(ack)).(calls := s.calls[call := s.calls[call].(stage := Removed)]);
    hide Moved;
    Associate(s.history, [], []);
  }

  /** The three steps of an undisturbed acknowledgement. */
  lemma {:induction false} Acknowledging(s: Server, call: nat, id: Uuid, ack: Ack)
    requires KeysOk(s) && call !in s.calls && id in s.pending && TicketMatches(s.pending[id], ack.agent, ack.ticket, s.now)
    requires ack.at == s.now
    ensures Run(s, [Check(call, id, ack.agent, ack.ticket, ack.accepted), Remove(call), Step.Answer(call)],
                s.(pending := s.pending - {id}, conns := s.conns[id := Answered(s.conns[id], ack)]))
  {
    hide Next;
    hide Possible;
    hide Run;
    var check := Check(call, id, ack.agent, ack.ticket, ack.accepted);
    Checking(s, call, id, ack);
    var a := Next(s, check);
    Removing(a, call, id, ack);
    var b := Next(a, Remove(call));
    OverwriteCall(s.calls, call, Call(id, ack, Checked), Call(id, ack, Removed));
    Delivering(s, call, id, ack, b);
    hide Answered;
    RunsOne(s, check);
    RunThen(s, [check], a, Remove(call));
    assert [check] + [Remove(call)] == [check, Remove(call)];
    RunThen(s, [check, Remove(call)], b, Step.Answer(call));
    assert [check, Remove(call)] + [Step.Answer(call)] == [check, Remove(call), Step.Answer(call)];
  }

  /** A waiting task hears the answer to its own open message: agent, ticket and expiry are all that an
      acknowledgement needs, and then the task goes on as the agent said. */
  lemma {:induction false} AcknowledgedTaskGoesOn(s: Server, call: nat, id: Uuid, ack: Ack)
    requires KeysOk(s) && call !in s.calls && id in s.pending && s.conns[id].phase == Waiting
    requires s.pending[id] == Pending(ack.agent, TicketHash(ack.ticket), s.pending[id].expires)
    requires ack.at == s.now < s.pending[id].expires
    ensures exists t ::
      && Run(s, [Check(call, id, ack.agent, ack.ticket, ack.accepted), Remove(call), Step.Answer(call), Task(id, HearAnswer)], t)
      && id in t.conns && t.conns[id].phase == (if ack.accepted then Accepted else Withdrawing)
      && id !in t.pending && t.calls == s.calls
  {
    hide Run;
    Acknowledging(s, call, id, ack);
    var steps := [Check(call, id, ack.agent, ack.ticket, ack.accepted), Remove(call), Step.Answer(call)];
    var t := s.(pending := s.pending - {id}, conns := s.conns[id := Answered(s.conns[id], ack)]);
    assert t.conns[id].answer == Some(ack.accepted);
    hide Answered;
    HearingIs(t, id);
    hide Possible;
    hide Next;
    RunThen(s, steps, t, Task(id, HearAnswer));
    assert steps + [Task(id, HearAnswer)]
        == [Check(call, id, ack.agent, ack.ticket, ack.accepted), Remove(call), Step.Answer(call), Task(id, HearAnswer)];
  }

  /** A task that waits and has its answer goes on as it says, and does not time out. */
  lemma HearingIs(t: Server, id: Uuid)
    requires id in t.conns && t.conns[id].phase == Waiting && t.conns[id].answer.Some?
    ensures Possible(t, Task(id, HearAnswer)) && !Possible(t, Task(id, GiveUp))
    ensures var u := Next(t, Task(id, HearAnswer));
      && id in u.conns && u.conns[id].phase == (if t.conns[id].answer == Some(true) then Accepted else Withdrawing)
      && u.pending == t.pending && u.calls == t.calls
  {
    var c := t.conns[id];
    QuietMove(t, id, HearAnswer, c.(phase := if c.answer == Some(true) then Accepted else Withdrawing));
    hide Moved;
  }

  lemma StepKeepsAnswer(s: Server, step: Step, id: Uuid)
    requires ConnsOk(s) && CallsOk(s) && Possible(s, step) && id in s.conns && s.conns[id].answer.Some?
    ensures id in Next(s, step).conns && Next(s, step).conns[id].answer == s.conns[id].answer
  {
    hide Next;
    hide Possible;
    hide MoveNext;
    hide MoveAllowed;
    hide CallsOk;
    CallsFit(s, step);
    StepOnConn(s, step, id);
    hide PartOf;
    AnsweredOnce(LocalOf(s, id));
    hide LocalOk;
    var p := PartOf(s, step);
    if p.MovePart? && p.id == id {
      TicketFields(LocalOf(s, id), p.m);
    }
    assert LocalOf(Next(s, step), id).conn == Next(s, step).conns[id];
  }

  lemma AnsweredOnce(l: Local)
    requires LocalOk(l) && l.conn.answer.Some?
    ensures |l.conn.acks| == 1 && l.conn.answer == Some(l.conn.acks[0].accepted)
  {
  }

  lemma {:induction false} RunKeepsAnswer(s: Server, steps: seq<Step>, t: Server, id: Uuid)
    requires ServerOk(s) && Run(s, steps, t) && id in s.conns && s.conns[id].answer.Some?
    ensures id in t.conns && t.conns[id].answer == s.conns[id].answer
    decreases |steps|
  {
    hide ServerOk;
    hide Next;
    hide Possible;
    hide ConnsOk;
    hide CallsOk;
    if steps != [] {
      ServerConns(s);
      StepKeepsAnswer(s, steps[0], id);
      StepKeepsServerOk(s, steps[0]);
      RunKeepsAnswer(Next(s, steps[0]), steps[1..], t, id);
    }
  }

  /** The answer is not lost: a caller that has removed the ticket answers the task before or while it waits, and
      whatever others do in between, the task when it waits hears that answer and cannot time out instead. */
  lemma {:induction false} AnswersAreHeard(s: Server, call: nat, steps: seq<Step>, t: Server)
    requires Reachable(s) && call in s.calls && s.calls[call].stage == Removed && s.calls[call].id in s.conns
    requires s.conns[s.calls[call].id].phase == Pended || s.conns[s.calls[call].id].phase == Waiting
    requires Run(Next(s, Step.Answer(call)), steps, t)
    ensures var id, b := s.calls[call].id, s.calls[call].ack.accepted;
      && id in t.conns && t.conns[id].answer == Some(b)
      && (t.conns[id].phase == Waiting ==>
            && Possible(t, Task(id, HearAnswer)) && !Possible(t, Task(id, GiveUp))
            && id in Next(t, Task(id, HearAnswer)).conns
            && Next(t, Task(id, HearAnswer)).conns[id].phase == if b then Accepted else Withdrawing)
  {
    var id, b := s.calls[call].id, s.calls[call].ack.accepted;
    ReachableIsOk(s);
    hide ServerOk;
    AnswerMoves(s, call);
    DeliverIs(s, id, s.calls[call].ack);
    hide Moved;
    hide Reachable;
    var u := Next(s, Step.Answer(call));
    assert u.conns[id].answer == Some(b);
    StepKeepsServerOk(s, Step.Answer(call));
    hide Next;
    hide Possible;
    RunKeepsAnswer(u, steps, t, id);
    hide Run;
    if t.conns[id].phase == Waiting {
      HearingIs(t, id);
    }
  }

  lemma OverwriteCall(calls: map<nat, Call>, call: nat, c: Call, d: Call)
    ensures calls[call := c][call := d] == calls[call := d]
  {
  }

  lemma Delivering(s: Server, call: nat, id: Uuid, ack: Ack, b: Server)
    requires id in s.conns && call !in s.calls
    requires b == s.(calls := s.calls[call := Call(id, ack, Removed)], pending := s.pending - {id},
                     conns := s.conns[id := s.conns[id].(acks := s.conns[id].acks + [ack])])
    ensures Possible(b, Step.Answer(call))
    ensures Next(b, Step.Answer(call)) == s.(pending := s.pending - {id}, conns := s.conns[id := Answered(s.conns[id], ack)])
  {
    hide Next;
    hide Possible;
    hide Moved;
    AnswerMoves(b, call);
    DeliverIs(b, id, ack);
    hide CanMove;
    assert b.calls - {call} == s.calls;
    assert b.conns[id := Answered(s.conns[id], ack)] == s.conns[id := Answered(s.conns[id], ack)];
  }

  lemma AnswerMoves(b: Server, call: nat)
    requires call in b.calls && b.calls[call].stage == Removed && b.calls[call].id in b.conns
    ensures var c := b.calls[call];
      && Possible(b, Step.Answer(call)) && CanMove(b, c.id, Deliver(c.ack.accepted))
      && Next(b, Step.Answer(call)) == Moved(b, c.id, Deliver(c.ack.accepted)).(calls := b.calls - {call})
  {
    hide Moved;
  }

  /** `b` has the acknowledgement recorded already, and now hears the answer. */
  lemma DeliverIs(b: Server, id: Uuid, ack: Ack)
    requires id in b.conns
    ensures CanMove(b, id, Deliver(ack.accepted))
    ensures var c := b.conns[id];
      Moved(b, id, Deliver(ack.accepted)) == b.(conns := b.conns[id := if Hears(c.phase) then c.(answer := Some(ack.accepted)) else c])
  {
    MoveIs(b, id, Deliver(ack.accepted));
    hide Moved;
    Associate(b.history, [], []);
  }

  lemma Purging(s: Server, id: Uuid)
    requires KeysOk(s) && id in s.pending && s.pending[id].expires <= s.now
    ensures Possible(s, Step.Cleanup(id)) && Next(s, Step.Cleanup(id)) == s.(pending := s.pending - {id})
  {
    MoveIs(s, id, Purge(s.now));
    assert Next(s, Step.Cleanup(id)) == Moved(s, id, Purge(s.now));
    hide Moved;
    assert s.history + [] == s.history && s.conns[id := s.conns[id]] == s.conns;
  }

  lemma {:induction false} NothingCounted(s: Server, id: Uuid)
    requires Bridging(s, id)
    ensures s == WithDown(s, id, 0) == WithUp(s, id, 0) && Run(s, [], s)
    ensures id in s.active && s.active[id := s.active[id].(up := s.active[id].up + 0, down := s.active[id].down + 0)] == s.active
  {
    PutSame(s, id);
    hide Put;
  }

  lemma DownTwice(s: Server, id: Uuid, m: nat, n: nat)
    requires Bridging(s, id)
    ensures Bridging(WithDown(s, id, m), id) && WithDown(WithDown(s, id, m), id, n) == WithDown(s, id, m + n)
  {
    hide Put;
    var a, c := s.active[id], s.conns[id];
    var a1, c1 := a.(down := a.down + m), c.(down := c.down + m);
    PutReads(s, id, s.bytesUp, s.bytesDown + m, a1, c1);
    PutTwice(s, id, s.bytesUp, s.bytesDown + m, a1, c1,
             s.bytesUp, s.bytesDown + m + n, a1.(down := a1.down + n), c1.(down := c1.down + n));
  }

  lemma UpTwice(s: Server, id: Uuid, m: nat, n: nat)
    requires Bridging(s, id)
    ensures Bridging(WithUp(s, id, m), id) && WithUp(WithUp(s, id, m), id, n) == WithUp(s, id, m + n)
  {
    hide Put;
    var a, c := s.active[id], s.conns[id];
    var a1, c1 := a.(up := a.up + m), c.(up := c.up + m);
    PutReads(s, id, s.bytesUp + m, s.bytesDown, a1, c1);
    PutTwice(s, id, s.bytesUp + m, s.bytesDown, a1, c1,
             s.bytesUp + m + n, s.bytesDown, a1.(up := a1.up + n), c1.(up := c1.up + n));
  }

  /** Both loops' counts. */
  function Both(s: Server, id: Uuid, d: nat, u: nat): Server
    requires id in s.conns && id in s.active
  {
    var a, c := s.active[id], s.conns[id];
    Put(s, id, s.bytesUp + u, s.bytesDown + d, a.(down := a.down + d, up := a.up + u), c.(down := c.down + d, up := c.up + u))
  }

  lemma BothDown(s: Server, id: Uuid, d: nat, u: nat, n: nat)
    requires Bridging(s, id)
    ensures Bridging(Both(s, id, d, u), id) && WithDown(Both(s, id, d, u), id, n) == Both(s, id, d + n, u)
  {
    hide Put;
    var a, c := s.active[id], s.conns[id];
    var a1, c1 := a.(down := a.down + d, up := a.up + u), c.(down := c.down + d, up := c.up + u);
    PutReads(s, id, s.bytesUp + u, s.bytesDown + d, a1, c1);
    PutTwice(s, id, s.bytesUp + u, s.bytesDown + d, a1, c1,
             s.bytesUp + u, s.bytesDown + d + n, a1.(down := a1.down + n), c1.(down := c1.down + n));
  }

  lemma BothUp(s: Server, id: Uuid, d: nat, u: nat, n: nat)
    requires Bridging(s, id)
    ensures Bridging(Both(s, id, d, u), id) && WithUp(Both(s, id, d, u), id, n) == Both(s, id, d, u + n)
  {
    hide Put;
    var a, c := s.active[id], s.conns[id];
    var a1, c1 := a.(down := a.down + d, up := a.up + u), c.(down := c.down + d, up := c.up + u);
    PutReads(s, id, s.bytesUp + u, s.bytesDown + d, a1, c1);
    PutTwice(s, id, s.bytesUp + u, s.bytesDown + d, a1, c1,
             s.bytesUp + u + n, s.bytesDown + d, a1.(up := a1.up + n), c1.(up := c1.up + n));
  }

  lemma BothNone(s: Server, id: Uuid)
    requires Bridging(s, id)
    ensures Both(s, id, 0, 0) == s
  {
    PutSame(s, id);
    hide Put;
  }

  lemma StillBridging(s: Server, id: Uuid, n: nat)
    requires Bridging(s, id)
    ensures Bridging(WithDown(s, id, n), id) && Bridging(WithUp(s, id, n), id)
  {
    DownTwice(s, id, n, 0);
    UpTwice(s, id, n, 0);
  }

  lemma DroppingActive(l: Local, id: Uuid)
    requires l.conn.phase == Departing(Bridged) && l.act.Some?
    ensures MoveNext(l, DropActive) == l.(act := None, conn := l.conn.(phase := Closed(Bridged)))
    ensures RowsOf(l, id, DropActive)
         == if l.conn.tunnel.kind == Tcp then [Row(id, l.act.value.tunnel, l.act.value.up, l.act.value.down)] else []
  {
  }

  lemma DropActiveIs(s: Server, id: Uuid)
    requires id in s.conns && id in s.active && s.conns[id].phase == Departing(Bridged)
    ensures CanMove(s, id, DropActive)
    ensures var c, a := s.conns[id], s.active[id];
      Moved(s, id, DropActive) == s.(
        conns := s.conns[id := c.(phase := Closed(Bridged))], active := s.active - {id},
        history := s.history + if c.tunnel.kind == Tcp then [Row(id, a.tunnel, a.up, a.down)] else [])
  {
    DroppingActive(LocalOf(s, id), id);
    hide MoveNext;
    hide RowsOf;
    MoveIs(s, id, DropActive);
    hide Moved;
  }

  lemma ActivateIs(s: Server, id: Uuid)
    requires id in s.conns && s.conns[id].phase == (if IsUdp(s.conns[id]) then Counted else Accepted)
    ensures CanMove(s, id, Activate)
    ensures var c := s.conns[id];
      Moved(s, id, Activate) == s.(
        conns := s.conns[id := c.(phase := Opened)], active := s.active[id := Active(c.tunnel.id, c.peer, c.tunnel.kind, 0, 0)])
  {
    MoveIs(s, id, Activate);
    hide Moved;
    Associate(s.history, [], []);
    var a := Active(s.conns[id].tunnel.id, s.conns[id].peer, s.conns[id].tunnel.kind, 0, 0);
    assert Get(s.active, id) == Some(a) ==> s.active[id := a] == s.active;
  }

  /** Moves that change nothing but the task's own record. */
  predicate Quiet(m: Move) {
    m.SendOpen? || m.HearAnswer? || m.GiveUp? || m.EndBridge? || m.List? || m.Unlist? || m.Forget?
  }

  lemma QuietMove(s: Server, id: Uuid, m: Move, c: Conn)
    requires CanMove(s, id, m) && Quiet(m) && MoveNext(LocalOf(s, id), m) == LocalOf(s, id).(conn := c)
    ensures Moved(s, id, m) == s.(conns := s.conns[id := c])
  {
    MoveIs(s, id, m);
    hide MoveNext;
    hide MoveAllowed;
    hide Moved;
    Associate(s.history, [], []);
  }

  /** What the invariant says of a waiting task: no active entry, nothing owed; no ticket once answered. */
  lemma WaitingLocal(l: Local)
    requires LocalOk(l) && l.conn.phase == Waiting
    ensures l.act == None && l.conn.owedUp == 0 && l.conn.owedDown == 0
    ensures l.conn.answer.Some? ==> l.pend == None
  {
    hide KindOk;
  }

  lemma RemoveAbsent<V>(m: map<Uuid, V>, id: Uuid)
    requires id !in m
    ensures m - {id} == m
  {
  }

  lemma WaitingTask(s: Server, id: Uuid)
    requires ServerOk(s) && id in s.conns && s.conns[id].phase == Waiting
    ensures id !in s.active && s.conns[id].owedUp == 0 && s.conns[id].owedDown == 0
    ensures s.conns[id].answer.Some? ==> id !in s.pending
    ensures s.active - {id} == s.active && (s.conns[id].answer.Some? ==> s.pending - {id} == s.pending)
  {
    hide LocalOk;
    ServerConns(s);
    hide ServerOk;
    WaitingLocal(LocalOf(s, id));
    RemoveAbsent(s.active, id);
    if id !in s.pending {
      RemoveAbsent(s.pending, id);
    }
  }

  // ---------------------------------------------------------------- what other tasks leave alone

  /** What only the task of `id` changes: where it is, what it owes, and its entries as a stream and as active. */
  predicate SameTask(l: Local, l': Local) {
    && l'.conn.phase == l.conn.phase && l'.conn.tunnel == l.conn.tunnel && l'.conn.peer == l.conn.peer
    && l'.conn.up == l.conn.up && l'.conn.down == l.conn.down && l'.conn.owedUp == l.conn.owedUp && l'.conn.owedDown == l.conn.owedDown
    && l'.streamed == l.streamed && l'.act == l.act
  }

  lemma OthersMove(l: Local, m: Move)
    requires MoveAllowed(l, m) && !OwnMove(m) && !IsUdp(l.conn) && l.conn.phase != Listed
    ensures SameTask(l, MoveNext(l, m))
  {
  }

  lemma PartOfOthers(s: Server, step: Step, id: Uuid)
    requires Possible(s, step) && !(step.Task? && step.id == id)
    ensures var p := PartOf(s, step); p.MovePart? && p.id == id ==> !OwnMove(p.m)
  {
    hide MoveAllowed;
  }

  lemma OthersStep(s: Server, step: Step, id: Uuid)
    requires Possible(s, step) && !(step.Task? && step.id == id) && id in s.conns
    requires !IsUdp(s.conns[id]) && s.conns[id].phase != Listed
    ensures id in Next(s, step).conns && SameTask(LocalOf(s, id), LocalOf(Next(s, step), id))
  {
    hide Next;
    hide Possible;
    hide PartOf;
    hide MoveAllowed;
    hide MoveNext;
    StepOnConn(s, step, id);
    PartOfOthers(s, step, id);
    var p := PartOf(s, step);
    if p.MovePart? && p.id == id {
      OthersMove(LocalOf(s, id), p.m);
    }
  }

  /** Whatever other tasks, acknowledgements, listeners and the cleanup do between two stretches of a TCP or Web
      connection's task, it finds itself where it was, owing what it owed, with its entries as they were: so
      each method of `AppState` may be followed by the next after any run of the others. */
  lemma {:induction false} OthersKeepTheTask(s: Server, steps: seq<Step>, t: Server, id: Uuid)
    requires Run(s, steps, t) && id in s.conns && !IsUdp(s.conns[id]) && s.conns[id].phase != Listed
    requires forall step :: step in steps ==> !(step.Task? && step.id == id)
    ensures id in t.conns && SameTask(LocalOf(s, id), LocalOf(t, id))
    ensures Bridging(s, id) ==> Bridging(t, id)
    decreases |steps|
  {
    hide Next;
    hide Possible;
    hide SameTask;
    if steps == [] {
      TaskIsItself(LocalOf(s, id));
    } else {
      assert steps[0] in steps && forall step :: step in steps[1..] ==> step in steps;
      OthersStep(s, steps[0], id);
      TaskKept(s, Next(s, steps[0]), id);
      OthersKeepTheTask(Next(s, steps[0]), steps[1..], t, id);
      TaskTwice(LocalOf(s, id), LocalOf(Next(s, steps[0]), id), LocalOf(t, id));
    }
  }

  lemma TaskIsItself(l: Local)
    ensures SameTask(l, l)
  {
  }

  lemma TaskTwice(a: Local, b: Local, c: Local)
    requires SameTask(a, b) && SameTask(b, c)
    ensures SameTask(a, c)
  {
  }

  lemma TaskKept(s: Server, t: Server, id: Uuid)
    requires id in s.conns && id in t.conns && SameTask(LocalOf(s, id), LocalOf(t, id))
    ensures t.conns[id].phase == s.conns[id].phase && IsUdp(t.conns[id]) == IsUdp(s.conns[id])
    ensures Bridging(s, id) ==> Bridging(t, id)
  {
    assert LocalOf(t, id).act == Get(t.active, id) && LocalOf(s, id).act == Get(s.active, id);
  }

  class AppState {
    var now: nat
    const ttl: nat
    const udpTimeout: nat
    var pending: map<Uuid, Pending>
    var streams: set<Uuid>
    var active: map<Uuid, Active>
    var bytesUp: nat
    var bytesDown: nat
    var activeUdp: int
    var rejected: nat
    var failed: nat
    var history: seq<Row>

    // The UDP listener tasks with their session tables, and the devices whose agent is connected.
    var listeners: map<nat, Listener>
    var agents: set<Uuid>

    // The tasks of connections and of acknowledgements.
    ghost var conns: map<Uuid, Conn>
    ghost var calls: map<nat, Call>

    constructor (ttl: nat, udpTimeout: nat)
      ensures Snapshot() == Initial(ttl, udpTimeout) && rejected == 0 && failed == 0
    {
      this.ttl, this.udpTimeout, now := ttl, udpTimeout, 0;
      pending, streams, active, history := map[], {}, map[], [];
      bytesUp, bytesDown, activeUdp, rejected, failed := 0, 0, 0, 0, 0;
      conns, calls, listeners, agents := map[], map[], map[], {};
    }

    ghost function Snapshot(): Server
      reads this
    {
      Server(now, ttl, udpTimeout, pending, streams, active, bytesUp, bytesDown, activeUdp, history, conns, calls, listeners)
    }

    /** `acknowledge_connection` without interference: the check, the removal, the answer. */
    method AcknowledgeConnection(id: Uuid, agent: Uuid, ticket: nat, accepted: bool, ghost call: nat)
      returns (ok: bool, ghost steps: seq<Step>)
      requires KeysOk(Snapshot()) && call !in calls
      modifies this`pending, this`conns, this`calls
      ensures ok <==> id in old(pending) && old(pending)[id].agent == agent && old(pending)[id].expires > now
                      && old(pending)[id].hash == TicketHash(ticket)
      ensures pending == if ok then old(pending) - {id} else old(pending)
      ensures calls == old(calls)
      ensures !ok ==> conns == old(conns)
      ensures ok ==> id in old(conns) && id in conns
      ensures ok ==> conns == old(conns)[id := old(conns)[id].(acks := old(conns)[id].acks + [Ack(agent, ticket, accepted, now)],
                                                               answer := conns[id].answer)]
      ensures ok && (old(conns)[id].phase == Pended || old(conns)[id].phase == Waiting) ==> conns[id].answer == Some(accepted)
      ensures ok && old(conns)[id].phase != Pended && old(conns)[id].phase != Waiting ==> conns[id].answer == old(conns)[id].answer
      ensures Run(old(Snapshot()), steps, Snapshot())
    {
      steps := [];
      if id !in pending { return false, []; }
      var p := pending[id];
      if p.agent != agent || p.expires <= now || p.hash != TicketHash(ticket) { return false, []; }
      ghost var ack := Ack(agent, ticket, accepted, now);
      ghost var s := Snapshot();
      Acknowledging(s, call, id, ack);
      pending := pending - {id};
      conns := conns[id := Answered(conns[id], ack)];
      return true, [Check(call, id, agent, ticket, accepted), Remove(call), Step.Answer(call)];
    }

    /** The hourly cleanup keeps exactly the tickets that have not expired. */
    method Cleanup() returns (ghost steps: seq<Step>)
      requires KeysOk(Snapshot())
      modifies this`pending
      ensures forall id :: id in pending <==> id in old(pending) && old(pending)[id].expires > now
      ensures forall id :: id in pending ==> pending[id] == old(pending)[id]
      ensures Run(old(Snapshot()), steps, Snapshot()) && forall step :: step in steps ==> step.Cleanup?
    {
      hide Run;
      var ids := pending.Keys;
      steps := [];
      RunsNone(Snapshot());
      while ids != {}
        invariant ids <= old(pending).Keys && KeysOk(Snapshot())
        invariant forall id :: id in pending <==> id in old(pending) && (id in ids || old(pending)[id].expires > now)
        invariant forall id :: id in pending ==> pending[id] == old(pending)[id]
        invariant Run(old(Snapshot()), steps, Snapshot()) && forall step :: step in steps ==> step.Cleanup?
      {
        var id :| id in ids;
        if !(pending[id].expires > now) {
          Purging(Snapshot(), id);
          RunThen(old(Snapshot()), steps, Snapshot(), Step.Cleanup(id));
          hide Next;
          steps := steps + [Step.Cleanup(id)];
          pending := pending - {id};
        }
        ids := ids - {id};
      }
    }

    // ---------------------------------------------------------------- single accesses to the shared state

    // Each extends the run `past` from `s` by its own step.

    ghost method Note(id: Uuid, m: Move, c: Conn, s: Server, past: seq<Step>) returns (steps: seq<Step>)
      requires Run(s, past, Snapshot()) && Possible(Snapshot(), Task(id, m))
      requires MoveNext(LocalOf(Snapshot(), id), m) == LocalOf(Snapshot(), id).(conn := c) && Quiet(m)
      modifies this`conns
      ensures Run(s, steps, Snapshot())
      ensures conns == old(conns)[id := c]
    {
      hide Run;
      QuietMove(Snapshot(), id, m, c);
      Extend(s, past, Snapshot(), id, m);
      hide Moved;
      hide MoveNext;
      hide MoveAllowed;
      steps := past + [Task(id, m)];
      conns := conns[id := c];
    }

    /** The agent's control channel takes the open message, or is closed. */
    ghost method NoteOpen(id: Uuid, sent: bool, s: Server, past: seq<Step>) returns (steps: seq<Step>)
      requires Run(s, past, Snapshot()) && id in conns && conns[id].phase == Pended
      modifies this`conns
      ensures Run(s, steps, Snapshot())
      ensures conns == old(conns)[id := if sent then old(conns)[id].(phase := Waiting, asked := true)
                                        else old(conns)[id].(phase := Abandoned)]
    {
      hide Run;
      var c := conns[id];
      steps := Note(id, SendOpen(sent), if sent then c.(phase := Waiting, asked := true) else c.(phase := Abandoned), s, past);
    }

    method InsertStream(id: Uuid, ghost s: Server, ghost past: seq<Step>) returns (ghost steps: seq<Step>)
      requires Run(s, past, Snapshot()) && id in conns && conns[id].phase == Admitted
      modifies this`streams, this`conns
      ensures Run(s, steps, Snapshot())
      ensures streams == old(streams) + {id} && conns == old(conns)[id := old(conns)[id].(phase := Streamed)]
    {
      hide Run;
      MoveIs(Snapshot(), id, AddStream);
      Extend(s, past, Snapshot(), id, AddStream);
      hide Moved;
      steps := past + [Task(id, AddStream)];
      assert id in streams ==> streams + {id} == streams;
      Associate(history, [], []);
      streams := streams + {id};
      conns := conns[id := conns[id].(phase := Streamed)];
    }

    method InsertPending(id: Uuid, tunnel: Tunnel, ticket: nat, ghost s: Server, ghost past: seq<Step>)
      returns (ghost steps: seq<Step>)
      requires Run(s, past, Snapshot()) && id in conns && conns[id].phase == Streamed
      requires tunnel == conns[id].tunnel && ticket == conns[id].ticket
      modifies this`pending, this`conns
      ensures Run(s, steps, Snapshot())
      ensures pending == old(pending)[id := Pending(tunnel.agent, TicketHash(ticket), now + ttl)]
      ensures conns == old(conns)[id := old(conns)[id].(phase := Pended, expires := now + ttl)]
    {
      hide Run;
      ghost var m := AddPending(now + ttl);
      MoveIs(Snapshot(), id, m);
      Extend(s, past, Snapshot(), id, m);
      hide Moved;
      steps := past + [Task(id, m)];
      var p := Pending(tunnel.agent, TicketHash(ticket), now + ttl);
      assert Get(pending, id) == Some(p) ==> pending[id := p] == pending;
      Associate(history, [], []);
      pending := pending[id := p];
      conns := conns[id := conns[id].(phase := Pended, expires := now + ttl)];
    }

    method RemovePending(id: Uuid, ghost s: Server, ghost past: seq<Step>) returns (ghost steps: seq<Step>)
      requires Run(s, past, Snapshot()) && id in conns && conns[id].phase == Withdrawing
      modifies this`pending, this`conns
      ensures Run(s, steps, Snapshot())
      ensures pending == old(pending) - {id} && conns == old(conns)[id := old(conns)[id].(phase := Unstreaming)]
    {
      hide Run;
      MoveIs(Snapshot(), id, DropPending);
      Extend(s, past, Snapshot(), id, DropPending);
      hide Moved;
      steps := past + [Task(id, DropPending)];
      assert id !in pending ==> pending - {id} == pending;
      Associate(history, [], []);
      pending := pending - {id};
      conns := conns[id := conns[id].(phase := Unstreaming)];
    }

    method RemoveStream(id: Uuid, ghost s: Server, ghost past: seq<Step>) returns (ghost steps: seq<Step>)
      requires Run(s, past, Snapshot()) && id in conns && (conns[id].phase == Unstreaming || conns[id].phase.Closing?)
      modifies this`streams, this`conns
      ensures Run(s, steps, Snapshot())
      ensures streams == old(streams) - {id}
      ensures conns == old(conns)[id := old(conns)[id].(phase :=
                         if old(conns)[id].phase == Unstreaming then Refused else Departing(old(conns)[id].phase.why))]
    {
      hide Run;
      MoveIs(Snapshot(), id, DropStream);
      Extend(s, past, Snapshot(), id, DropStream);
      hide Moved;
      steps := past + [Task(id, DropStream)];
      assert id !in streams ==> streams - {id} == streams;
      Associate(history, [], []);
      streams := streams - {id};
      conns := conns[id := MoveNext(LocalOf(old(Snapshot()), id), DropStream).conn];
    }

    method InsertActive(id: Uuid, tunnel: Tunnel, peer: Peer, ghost s: Server, ghost past: seq<Step>)
      returns (ghost steps: seq<Step>)
      requires Run(s, past, Snapshot()) && id in conns && conns[id].phase == (if tunnel.kind == Udp then Counted else Accepted)
      requires tunnel == conns[id].tunnel && peer == conns[id].peer
      modifies this`active, this`conns
      ensures Run(s, steps, Snapshot())
      ensures active == old(active)[id := Active(tunnel.id, peer, tunnel.kind, 0, 0)]
      ensures conns == old(conns)[id := old(conns)[id].(phase := Opened)]
    {
      hide Run;
      hide Moved;
      hide CanMove;
      ActivateIs(Snapshot(), id);
      Extend(s, past, Snapshot(), id, Activate);
      steps := past + [Task(id, Activate)];
      active := active[id := Active(tunnel.id, peer, tunnel.kind, 0, 0)];
      conns := conns[id := conns[id].(phase := Opened)];
    }

    /** A UDP session whose agent has accepted is counted before it is entered as active. */
    method CountSession(id: Uuid, ghost s: Server, ghost past: seq<Step>) returns (ghost steps: seq<Step>)
      requires Run(s, past, Snapshot()) && id in conns && conns[id].phase == Accepted && IsUdp(conns[id])
      modifies this`activeUdp, this`conns
      ensures Run(s, steps, Snapshot())
      ensures activeUdp == old(activeUdp) + 1 && conns == old(conns)[id := old(conns)[id].(phase := Counted)]
    {
      hide Run;
      MoveIs(Snapshot(), id, CountUdp);
      Extend(s, past, Snapshot(), id, CountUdp);
      hide Moved;
      Associate(history, [], []);
      steps := past + [Task(id, CountUdp)];
      activeUdp := activeUdp + 1;
      conns := conns[id := conns[id].(phase := Counted)];
    }

    /** The active entry goes; for TCP the history row is submitted with its totals. */
    method RemoveActive(id: Uuid, tunnel: Tunnel, ghost s: Server, ghost past: seq<Step>) returns (ghost steps: seq<Step>)
      requires Run(s, past, Snapshot()) && id in conns && conns[id].phase == Departing(Bridged) && tunnel == conns[id].tunnel
      requires id in active
      modifies this`active, this`history, this`conns
      ensures Run(s, steps, Snapshot())
      ensures active == old(active) - {id}
      ensures history == old(history)
        + (if tunnel.kind == Tcp then [Row(id, old(active)[id].tunnel, old(active)[id].up, old(active)[id].down)] else [])
      ensures conns == old(conns)[id := old(conns)[id].(phase := Closed(Bridged))]
    {
      hide Run;
      hide Moved;
      hide CanMove;
      DropActiveIs(Snapshot(), id);
      Extend(s, past, Snapshot(), id, DropActive);
      steps := past + [Task(id, DropActive)];
      var summary := active[id];
      active := active - {id};
      if tunnel.kind == Tcp {
        history := history + [Row(id, summary.tunnel, summary.up, summary.down)];
      }
      Associate(old(history), [], []);
      conns := conns[id := conns[id].(phase := Closed(Bridged))];
    }

    // ---------------------------------------------------------------- the two loops of `bridge`

    /** `add_down`, then the connection's own total. */
    method AddDown(id: Uuid, n: nat)
      requires Bridging(Snapshot(), id)
      modifies this`bytesDown, this`active, this`conns
      ensures Snapshot() == WithDown(old(Snapshot()), id, n)
      ensures bytesDown == old(bytesDown) + n
      ensures id in old(active) && active == old(active)[id := old(active)[id].(down := old(active)[id].down + n)]
    {
      bytesDown := bytesDown + n;
      active := active[id := active[id].(down := active[id].down + n)];
      conns := conns[id := conns[id].(down := conns[id].down + n)];
    }

    method AddUp(id: Uuid, n: nat)
      requires Bridging(Snapshot(), id)
      modifies this`bytesUp, this`active, this`conns
      ensures Snapshot() == WithUp(old(Snapshot()), id, n)
      ensures bytesUp == old(bytesUp) + n
      ensures id in old(active) && active == old(active)[id := old(active)[id].(up := old(active)[id].up + n)]
    {
      bytesUp := bytesUp + n;
      active := active[id := active[id].(up := active[id].up + n)];
      conns := conns[id := conns[id].(up := conns[id].up + n)];
    }

    /** One turn of the upstream loop. A frame counts only once the carrier has taken it. */
    method UpTurn(id: Uuid, turn: ReadTurn, ghost s: Server, ghost past: seq<Step>)
      returns (sent: seq<CarrierFrame>, over: bool, ghost steps: seq<Step>)
      requires Run(s, past, Snapshot()) && Bridging(Snapshot(), id)
      modifies this`bytesDown, this`active, this`conns
      ensures sent == FramesOf(id, turn) && over == LastRead(turn)
      ensures turn.Data? && turn.sent ==> sent == [CarrierFrame(FRAME_DATA, id, turn.bytes)] && !over
      ensures turn.Eof? && turn.sent ==> sent == [CarrierFrame(FRAME_FIN, id, [])] && over
      ensures turn.ReadFails? || !turn.sent ==> sent == [] && over
      ensures var n := if turn.Data? && turn.sent then |turn.bytes| else 0;
        && bytesDown == old(bytesDown) + n
        && id in old(active) && active == old(active)[id := old(active)[id].(down := old(active)[id].down + n)]
      ensures Bridging(Snapshot(), id) && Snapshot() == WithDown(old(Snapshot()), id, |Pipeline.Payloads(sent)|)
      ensures Run(s, steps, Snapshot())
    {
      hide Run;
      hide WithDown;
      hide Bridging;
      ghost var t := Snapshot();
      steps := past;
      NothingCounted(t, id);
      match turn {
        case Data(bytes, true) =>
          sent, over := [CarrierFrame(FRAME_DATA, id, bytes)], false;
          Pipeline.PayloadsSnoc([], sent[0]);
          assert [] + [sent[0]] == sent;
          CountingDown(t, id, |bytes|);
          StillBridging(t, id, |bytes|);
          AddDown(id, |bytes|);
          RunsJoin(s, past, t, [Task(id, CountDown(|bytes|)), Task(id, CreditDown)], Snapshot());
          steps := past + [Task(id, CountDown(|bytes|)), Task(id, CreditDown)];
        case Eof(true) =>
          sent, over := [CarrierFrame(FRAME_FIN, id, [])], true;
          Pipeline.PayloadsSnoc([], sent[0]);
          assert [] + [sent[0]] == sent;
        case _ =>
          sent, over := [], true;
      }
    }

    /** One turn of the downstream loop. A payload counts only once it has been written as a whole. */
    method DownTurn(id: Uuid, turn: WriteTurn, ghost s: Server, ghost past: seq<Step>)
      returns (wrote: seq<byte>, over: bool, shut: bool, ghost steps: seq<Step>)
      requires Run(s, past, Snapshot()) && Bridging(Snapshot(), id)
      modifies this`bytesUp, this`active, this`conns
      ensures wrote == Wrote(turn) && over == LastWrite(turn) && (shut <==> turn.Frame? && turn.kind == FRAME_FIN)
      ensures !turn.Frame? ==> wrote == [] && over
      ensures turn.Frame? && turn.kind != FRAME_DATA ==> wrote == [] && (over <==> turn.kind == FRAME_FIN || turn.kind == FRAME_RESET)
      ensures turn.Frame? && turn.kind == FRAME_DATA && |turn.payload| <= turn.accepted ==> wrote == turn.payload && !over
      ensures turn.Frame? && turn.kind == FRAME_DATA && turn.accepted < |turn.payload| ==> wrote == turn.payload[..turn.accepted] && over
      ensures var n := if turn.Frame? && turn.kind == FRAME_DATA && |turn.payload| <= turn.accepted then |turn.payload| else 0;
        && bytesUp == old(bytesUp) + n
        && id in old(active) && active == old(active)[id := old(active)[id].(up := old(active)[id].up + n)]
      ensures Bridging(Snapshot(), id) && Snapshot() == WithUp(old(Snapshot()), id, if LastWrite(turn) then 0 else |wrote|)
      ensures Run(s, steps, Snapshot())
    {
      hide Run;
      hide WithUp;
      hide Bridging;
      ghost var t := Snapshot();
      steps, wrote := past, [];
      NothingCounted(t, id);
      over := !turn.Frame? || turn.kind == FRAME_FIN || turn.kind == FRAME_RESET;
      shut := turn.Frame? && turn.kind == FRAME_FIN;
      if turn.Frame? && turn.kind == FRAME_DATA {
        if turn.accepted < |turn.payload| {
          return turn.payload[..turn.accepted], true, false, past;
        }
        var n := |turn.payload|;
        wrote := turn.payload;
        CountingUp(t, id, n);
        StillBridging(t, id, n);
        AddUp(id, n);
        RunsJoin(s, past, t, [Task(id, CountUp(n)), Task(id, CreditUp)], Snapshot());
        steps := past + [Task(id, CountUp(n)), Task(id, CreditUp)];
      }
    }

    /** One turn of one of the loops, which does nothing once that loop has ended. */
    method JoinTurn(id: Uuid, turn: BridgeTurn, p: Progress, ghost t: Server, ghost s: Server, ghost past: seq<Step>)
      returns (q: Progress, ghost steps: seq<Step>)
      requires Run(s, past, Snapshot()) && Bridging(t, id) && Bridging(Snapshot(), id)
      requires Snapshot() == Both(t, id, |Pipeline.Payloads(p.frames)|, |p.counted|)
      modifies this`active, this`conns, this`bytesUp, this`bytesDown
      ensures q == AfterTurn(id, turn, p)
      ensures Run(s, steps, Snapshot()) && Bridging(Snapshot(), id)
      ensures Snapshot() == Both(t, id, |Pipeline.Payloads(q.frames)|, |q.counted|)
    {
      hide Run;
      hide Bridging;
      hide Both;
      hide WithUp;
      hide WithDown;
      hide Pipeline.Payloads;
      hide FramesOf;
      hide Wrote;
      hide LastRead;
      hide LastWrite;
      q, steps := p, past;
      match turn {
        case Reads(read) =>
          if !p.upOver {
            var sent, over;
            sent, over, steps := UpTurn(id, read, s, past);
            BothDown(t, id, |Pipeline.Payloads(p.frames)|, |p.counted|, |Pipeline.Payloads(sent)|);
            Pipeline.PayloadsAppend(p.frames, sent);
            q := p.(frames := p.frames + sent, upOver := over);
          }
        case Writes(write) =>
          if !p.downOver {
            var wrote, over, shut;
            wrote, over, shut, steps := DownTurn(id, write, s, past);
            var more := if over then [] else wrote;
            BothUp(t, id, |Pipeline.Payloads(p.frames)|, |p.counted|, |more|);
            q := p.(written := p.written + wrote, counted := p.counted + more, downOver := over, shut := shut);
          }
      }
    }

    /** Both loops, joined: they take turns in any order until each has ended. */
    method JoinLoops(id: Uuid, turns: seq<BridgeTurn>, ghost s: Server, ghost past: seq<Step>)
      returns (frames: seq<CarrierFrame>, written: seq<byte>, shut: bool, ghost steps: seq<Step>)
      requires Run(s, past, Snapshot()) && Bridging(Snapshot(), id)
      modifies this`active, this`conns, this`bytesUp, this`bytesDown
      ensures Run(s, steps, Snapshot()) && Bridging(Snapshot(), id)
      ensures frames == UpFrames(id, ReadsIn(turns)) && written == Written(WritesIn(turns))
      ensures shut == ShutsDown(WritesIn(turns))
      ensures Snapshot() == Both(old(Snapshot()), id, |Pipeline.Payloads(frames)|, |Complete(WritesIn(turns))|)
    {
      hide Run;
      ghost var t := Snapshot();
      var i, p := 0, Progress([], false, [], [], false, false);
      steps := past;
      NothingCounted(t, id);
      FirstTurn(id, turns);
      BothNone(t, id);
      assert Pipeline.Payloads([]) == [];
      hide Bridging;
      hide Both;
      hide Pipeline.Payloads;
      hide Joined;
      hide AfterTurn;
      while i < |turns|
        invariant 0 <= i <= |turns| && Joined(id, turns, i, p)
        invariant Run(s, steps, Snapshot()) && Bridging(Snapshot(), id)
        invariant Bridging(t, id) && id in t.conns && id in t.active
        invariant Snapshot() == Both(t, id, |Pipeline.Payloads(p.frames)|, |p.counted|)
      {
        OneTurn(id, turns, i, p);
        p, steps := JoinTurn(id, turns[i], p, t, s, steps);
        i := i + 1;
      }
      LastTurn(id, turns, p);
      frames, written, shut := p.frames, p.written, p.downOver && p.shut;
    }

    // ---------------------------------------------------------------- accepting a public connection

    /** The stream is registered before the ticket. */
    method Register(tunnel: Tunnel, peer: Peer, id: Uuid, ticket: nat) returns (ghost steps: seq<Step>)
      requires id !in conns && tunnel.kind != Udp && SourceAllowed(tunnel, peer)
      modifies this`pending, this`streams, this`conns
      ensures Run(old(Snapshot()), steps, Snapshot())
      ensures pending == old(pending)[id := Pending(tunnel.agent, TicketHash(ticket), now + ttl)]
      ensures streams == old(streams) + {id}
      ensures conns == old(conns)[id := NewConn(tunnel, peer, 0, ticket).(phase := Pended, expires := now + ttl)]
    {
      hide Run;
      ghost var s := Snapshot();
      RunsOne(s, Admit(id, tunnel, peer, ticket));
      conns := conns[id := NewConn(tunnel, peer, 0, ticket)];
      steps := [Admit(id, tunnel, peer, ticket)];
      steps := InsertStream(id, s, steps);
      steps := InsertPending(id, tunnel, ticket, s, steps);
    }

    /** From the source check to the ticket. The handler of a web request then waits for the peer's location. */
    method BeginConnection(tunnel: Tunnel, peer: Peer, id: Uuid, ticket: nat) returns (opening: Opening, ghost steps: seq<Step>)
      requires id !in conns && tunnel.kind != Udp
      modifies this`pending, this`streams, this`conns, this`rejected, this`failed
      ensures Run(old(Snapshot()), steps, Snapshot())
      ensures opening == Denied <==> peer.ip !in tunnel.sources
      ensures opening == Offline <==> peer.ip in tunnel.sources && tunnel.agent !in agents
      ensures opening == Registered <==> peer.ip in tunnel.sources && tunnel.agent in agents
      ensures rejected == old(rejected) + (if opening == Denied then 1 else 0)
      ensures failed == old(failed) + (if opening == Offline && tunnel.kind == Tcp then 1 else 0)
      ensures opening != Registered ==> Snapshot() == old(Snapshot())
      ensures opening == Registered ==>
        && pending == old(pending)[id := Pending(tunnel.agent, TicketHash(ticket), now + ttl)]
        && streams == old(streams) + {id}
        && conns == old(conns)[id := NewConn(tunnel, peer, 0, ticket).(phase := Pended, expires := now + ttl)]
    {
      hide Run;
      steps := [];
      RunsNone(Snapshot());
      if peer.ip !in tunnel.sources {
        rejected := rejected + 1;
        return Denied, steps;
      }
      if tunnel.agent !in agents {
        if tunnel.kind == Tcp {
          failed := failed + 1;
        }
        return Offline, steps;
      }
      steps := Register(tunnel, peer, id, ticket);
      opening := Registered;
    }

    /** The open message, whatever has happened since. When it cannot be sent, the early return leaves the
        ticket and the stream behind. */
    method SendOpenMessage(id: Uuid, sent: bool) returns (opening: Opening, ghost steps: seq<Step>)
      requires id in conns && conns[id].phase == Pended
      modifies this`conns
      ensures Run(old(Snapshot()), steps, Snapshot())
      ensures opening == if sent then Opening.Sent else Unsent
      ensures conns == old(conns)[id := if sent then old(conns)[id].(phase := Waiting, asked := true)
                                        else old(conns)[id].(phase := Abandoned)]
    {
      hide Run;
      RunsNone(Snapshot());
      steps := NoteOpen(id, sent, Snapshot(), []);
      opening := if sent then Opening.Sent else Unsent;
    }

    /** Both, when nothing comes between them, as in `accept_public_connection`. */
    method OpenConnection(tunnel: Tunnel, peer: Peer, id: Uuid, ticket: nat, sent: bool)
      returns (opening: Opening, ghost steps: seq<Step>)
      requires id !in conns && tunnel.kind != Udp
      modifies this`pending, this`streams, this`conns, this`rejected, this`failed
      ensures Run(old(Snapshot()), steps, Snapshot())
      ensures opening == Denied <==> peer.ip !in tunnel.sources
      ensures opening == Offline <==> peer.ip in tunnel.sources && tunnel.agent !in agents
      ensures peer.ip in tunnel.sources && tunnel.agent in agents ==> opening == if sent then Opening.Sent else Unsent
      ensures rejected == old(rejected) + (if opening == Denied then 1 else 0)
      ensures failed == old(failed) + (if opening == Offline && tunnel.kind == Tcp then 1 else 0)
      ensures opening == Denied || opening == Offline ==> Snapshot() == old(Snapshot())
      ensures opening == Unsent || opening == Opening.Sent ==>
        && pending == old(pending)[id := Pending(tunnel.agent, TicketHash(ticket), now + ttl)]
        && streams == old(streams) + {id}
        && id in conns && conns == old(conns)[id := conns[id]]
        && conns[id].phase == (if sent then Waiting else Abandoned) && conns[id].tunnel == tunnel && conns[id].peer == peer
    {
      hide Run;
      opening, steps := BeginConnection(tunnel, peer, id, ticket);
      if opening == Registered {
        ghost var s, more := Snapshot(), [];
        opening, more := SendOpenMessage(id, sent);
        RunsJoin(old(Snapshot()), steps, s, more, Snapshot());
        steps := steps + more;
      }
    }

    /** The answer was no, or none came: ticket and stream are taken back, and a timeout is counted. */
    method Withdraw(id: Uuid, tunnel: Tunnel, timedOut: bool, ghost s: Server, ghost past: seq<Step>)
      returns (ghost steps: seq<Step>)
      requires Run(s, past, Snapshot()) && id in conns && conns[id].phase == Withdrawing
      modifies this`pending, this`streams, this`conns, this`failed
      ensures Run(s, steps, Snapshot())
      ensures pending == old(pending) - {id} && streams == old(streams) - {id}
      ensures conns == old(conns)[id := old(conns)[id].(phase := Refused)]
      ensures failed == old(failed) + (if timedOut && tunnel.kind == Tcp then 1 else 0)
    {
      hide Run;
      steps := RemovePending(id, s, past);
      steps := RemoveStream(id, s, steps);
      if timedOut && tunnel.kind == Tcp {
        failed := failed + 1;
      }
    }

    /** The task stops waiting: it hears the answer, or gives up. */
    ghost method NoteHeard(id: Uuid, s: Server, past: seq<Step>) returns (steps: seq<Step>)
      requires Run(s, past, Snapshot()) && id in conns && conns[id].phase == Waiting
      modifies this`conns
      ensures Run(s, steps, Snapshot())
      ensures conns == old(conns)[id := old(conns)[id].(phase := if old(conns)[id].answer == Some(true) then Accepted else Withdrawing)]
    {
      hide Run;
      var c := conns[id];
      steps := Note(id, if c.answer.Some? then HearAnswer else GiveUp,
                    c.(phase := if c.answer == Some(true) then Accepted else Withdrawing), s, past);
    }

    ghost method NoteBridgeOver(id: Uuid, s: Server, past: seq<Step>) returns (steps: seq<Step>)
      requires Run(s, past, Snapshot()) && Bridging(Snapshot(), id)
      modifies this`conns
      ensures Run(s, steps, Snapshot())
      ensures conns == old(conns)[id := old(conns)[id].(phase := Closing(Bridged))]
    {
      hide Run;
      steps := Note(id, EndBridge, conns[id].(phase := Closing(Bridged)), s, past);
    }

    /** The bridge is over: the stream entry goes, then the active entry, then the history row. */
    method CloseConnection(id: Uuid, tunnel: Tunnel, ghost s: Server, ghost past: seq<Step>) returns (ghost steps: seq<Step>)
      requires Run(s, past, Snapshot()) && Bridging(Snapshot(), id) && tunnel == conns[id].tunnel
      modifies this`streams, this`active, this`conns, this`history
      ensures Run(s, steps, Snapshot())
      ensures streams == old(streams) - {id} && active == old(active) - {id}
      ensures history == old(history)
        + (if tunnel.kind == Tcp then [Row(id, old(active)[id].tunnel, old(active)[id].up, old(active)[id].down)] else [])
      ensures conns == old(conns)[id := old(conns)[id].(phase := Closed(Bridged))]
    {
      hide Run;
      steps := NoteBridgeOver(id, s, past);
      hide Bridging;
      steps := RemoveStream(id, s, steps);
      steps := RemoveActive(id, tunnel, s, steps);
    }

    /** The accepted connection, from its active entry to the history row. */
    method Bridge(id: Uuid, tunnel: Tunnel, peer: Peer, turns: seq<BridgeTurn>,
                  ghost s: Server, ghost past: seq<Step>)
      returns (frames: seq<CarrierFrame>, written: seq<byte>, shut: bool, ghost steps: seq<Step>)
      requires Run(s, past, Snapshot()) && id in conns && conns[id].phase == Accepted
      requires tunnel == conns[id].tunnel && peer == conns[id].peer && tunnel.kind != Udp
      requires conns[id].owedUp == 0 && conns[id].owedDown == 0 && id !in active
      modifies this`streams, this`active, this`conns, this`bytesUp, this`bytesDown, this`history
      ensures Run(s, steps, Snapshot())
      ensures frames == UpFrames(id, ReadsIn(turns)) && written == Written(WritesIn(turns)) && shut == ShutsDown(WritesIn(turns))
      ensures streams == old(streams) - {id} && active == old(active)
      ensures bytesDown == old(bytesDown) + |Pipeline.Payloads(frames)| && bytesUp == old(bytesUp) + |Complete(WritesIn(turns))|
      ensures history == old(history) + (if tunnel.kind == Tcp then [Row(id, tunnel.id, |Complete(WritesIn(turns))|, |Pipeline.Payloads(frames)|)] else [])
      ensures id in conns && conns == old(conns)[id := conns[id]] && conns[id].phase == Closed(Bridged)
    {
      hide Run;
      hide UpFrames;
      hide Written;
      hide Complete;
      hide ShutsDown;
      hide ReadsIn;
      hide WritesIn;
      hide Pipeline.Payloads;
      steps := InsertActive(id, tunnel, peer, s, past);
      assert Bridging(Snapshot(), id);
      hide Bridging;
      frames, written, shut, steps := JoinLoops(id, turns, s, steps);
      hide Both;
      steps := CloseConnection(id, tunnel, s, steps);
      assert active == old(active);
    }

    /** From the agent's answer to the end. Whatever the answer and however the bridge ends, the connection
        leaves all three maps, every other entry is as before, and exactly the forwarded bytes are counted. */
    method FinishConnection(id: Uuid, tunnel: Tunnel, peer: Peer, heard: Option<bool>, turns: seq<BridgeTurn>)
      returns (frames: seq<CarrierFrame>, written: seq<byte>, shut: bool, ghost steps: seq<Step>)
      requires ServerOk(Snapshot()) && id in conns && conns[id].phase == Waiting && conns[id].answer == heard
      requires tunnel == conns[id].tunnel && peer == conns[id].peer && tunnel.kind != Udp
      modifies this`pending, this`streams, this`active, this`conns, this`bytesUp, this`bytesDown, this`history, this`failed
      ensures Run(old(Snapshot()), steps, Snapshot())
      ensures pending == old(pending) - {id} && streams == old(streams) - {id} && active == old(active) - {id}
      ensures frames == (if heard == Some(true) then UpFrames(id, ReadsIn(turns)) else [])
      ensures written == (if heard == Some(true) then Written(WritesIn(turns)) else [])
      ensures shut <==> heard == Some(true) && ShutsDown(WritesIn(turns))
      ensures bytesDown == old(bytesDown) + |Pipeline.Payloads(frames)|
      ensures bytesUp == old(bytesUp) + if heard == Some(true) then |Complete(WritesIn(turns))| else 0
      ensures history == old(history)
        + (if heard == Some(true) && tunnel.kind == Tcp then [Row(id, tunnel.id, |Complete(WritesIn(turns))|, |Pipeline.Payloads(frames)|)] else [])
      ensures failed == old(failed) + (if heard == None && tunnel.kind == Tcp then 1 else 0)
      ensures id in conns && conns == old(conns)[id := conns[id]]
      ensures conns[id].phase == if heard == Some(true) then Closed(Bridged) else Refused
    {
      hide Run;
      hide ServerOk;
      hide UpFrames;
      hide Written;
      hide Complete;
      hide ShutsDown;
      hide ReadsIn;
      hide WritesIn;
      hide Bridging;
      assert Pipeline.Payloads([]) == [];
      hide Pipeline.Payloads;
      hide LocalOf;
      ghost var s := Snapshot();
      RunsNone(s);
      WaitingTask(s, id);
      frames, written, shut := [], [], false;
      steps := NoteHeard(id, s, []);
      if heard == Some(true) {
        frames, written, shut, steps := Bridge(id, tunnel, peer, turns, s, steps);
      } else {
        steps := Withdraw(id, tunnel, heard == None, s, steps);
      }
    }
  }
}
