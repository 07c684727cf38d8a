/** Acknowledging in two steps - check, then remove - refines one atomic check-and-consume. */
module GatewayTickets {
  import opened Bytes
  import opened Protocol
  import opened Gateway
  import opened GatewaySafety
  import opened GatewayRuns

  /** The abstract book of tickets: those that can be used, all connections ever met, those a ticket was
      issued for, and the acknowledgements that used one. */
  datatype Book = Book(now: nat, tickets: map<Uuid, Pending>, issued: set<Uuid>, uses: map<Uuid, seq<Ack>>)

  datatype TicketStep =
    | Pass(d: nat)
    | Meet(id: Uuid)
    | Issue(id: Uuid, p: Pending)
    | Withdraw(id: Uuid)                 // the waiting task gave up
    | Expire(id: Uuid)                   // hourly cleanup
    | Acknowledge(id: Uuid, ack: Ack)    // atomic: the ticket is there, matches and is consumed

  predicate TicketAllowed(b: Book, st: TicketStep) {
    match st
    case Pass(_) => true
    case Meet(id) => id !in b.uses
    case Issue(id, _) => id in b.uses && id !in b.issued
    case Withdraw(id) => id in b.tickets
    case Expire(id) => id in b.tickets && b.tickets[id].expires <= b.now
    case Acknowledge(id, ack) =>
      && id in b.tickets && id in b.uses && ack.at <= b.now
      && b.tickets[id].agent == ack.agent && b.tickets[id].hash == TicketHash(ack.ticket) && ack.at < b.tickets[id].expires
  }

  function TicketNext(b: Book, st: TicketStep): Book
    requires TicketAllowed(b, st)
  {
    match st
    case Pass(d) => b.(now := b.now + d)
    case Meet(id) => b.(uses := b.uses[id := []])
    case Issue(id, p) => b.(tickets := b.tickets[id := p], issued := b.issued + {id})
    case Withdraw(id) => b.(tickets := b.tickets - {id})
    case Expire(id) => b.(tickets := b.tickets - {id})
    case Acknowledge(id, ack) => b.(tickets := b.tickets - {id}, uses := b.uses[id := b.uses[id] + [ack]])
  }

  ghost predicate TicketRun(b: Book, steps: seq<TicketStep>, d: Book)
    decreases |steps|
  {
    if steps == [] then b == d
    else TicketAllowed(b, steps[0]) && TicketRun(TicketNext(b, steps[0]), steps[1..], d)
  }

  // ---------------------------------------------------------------- the server as a book

  predicate Issued(p: Phase) {
    p != Admitted && p != Streamed
  }

  function IssuedIn(conns: map<Uuid, Conn>): set<Uuid> {
    set id | id in conns && Issued(conns[id].phase)
  }

  function UsesIn(conns: map<Uuid, Conn>): map<Uuid, seq<Ack>> {
    map id | id in conns :: conns[id].acks
  }

  function BookOf(s: Server): Book {
    Book(s.now, s.pending, IssuedIn(s.conns), UsesIn(s.conns))
  }

  /** What a server step is to the book: at most one atomic step. */
  function MeaningOf(s: Server, step: Step): seq<TicketStep>
    requires Possible(s, step)
  {
    match step
    case Tick(d) => [Pass(d)]
    case Admit(id, _, _, _) => [Meet(id)]
    case AdmitUdp(_, id, _, _, _) => [Meet(id)]
    case Task(id, m) =>
      if m.AddPending? then [Issue(id, Pending(s.conns[id].tunnel.agent, TicketHash(s.conns[id].ticket), m.expires))]
      else if m == DropPending && id in s.pending then [Withdraw(id)]
      else []
    case Cleanup(id) => [Expire(id)]
    case Remove(call) =>
      if s.calls[call].id in s.pending then [Acknowledge(s.calls[call].id, s.calls[call].ack)] else []
    case _ => []
  }

  function MoveMeaning(l: Local, id: Uuid, m: Move): seq<TicketStep> {
    if m.AddPending? then [Issue(id, Pending(l.conn.tunnel.agent, TicketHash(l.conn.ticket), m.expires))]
    else if m == DropPending && l.pend.Some? then [Withdraw(id)]
    else if m.Purge? then [Expire(id)]
    else if m.Consume? then [Acknowledge(id, m.ack)]
    else []
  }

  function PendAfter(l: Local, m: Move): Option<Pending> {
    if m.AddPending? then Some(Pending(l.conn.tunnel.agent, TicketHash(l.conn.ticket), m.expires))
    else if m == DropPending || m.Purge? || m.Consume? then None
    else l.pend
  }

  lemma PendField(l: Local, m: Move)
    requires MoveAllowed(l, m)
    ensures MoveNext(l, m).pend == PendAfter(l, m)
    ensures Issued(MoveNext(l, m).conn.phase) <==> Issued(l.conn.phase) || m.AddPending?
    ensures m.AddPending? ==> !Issued(l.conn.phase)
  {
    PhaseField(l, m);
  }

  lemma OneConnChanges(conns: map<Uuid, Conn>, id: Uuid, c: Conn)
    requires id in conns && (Issued(conns[id].phase) ==> Issued(c.phase))
    ensures IssuedIn(conns[id := c]) == if Issued(c.phase) then IssuedIn(conns) + {id} else IssuedIn(conns)
    ensures UsesIn(conns[id := c]) == UsesIn(conns)[id := c.acks]
  {
    hide Issued;
  }

  /** The book after one move. */
  lemma MovedBook(s: Server, id: Uuid, m: Move)
    requires CanMove(s, id, m)
    ensures id in BookOf(s).uses
    ensures var b, d, l := BookOf(s), BookOf(Moved(s, id, m)), LocalOf(s, id);
      && d.now == b.now && d.tickets == Set(b.tickets, id, PendAfter(l, m))
      && d.issued == (if m.AddPending? then b.issued + {id} else b.issued)
      && d.uses == b.uses[id := b.uses[id] + (if m.Consume? then [m.ack] else [])]
  {
    var l := LocalOf(s, id);
    PendField(l, m);
    TicketFields(l, m);
    MovedPend(s, id, m);
    hide MoveNext;
    hide MoveAllowed;
    hide PendAfter;
    hide Moved;
    OneConnChanges(s.conns, id, MoveNext(l, m).conn);
    assert Issued(l.conn.phase) ==> id in IssuedIn(s.conns);
    hide Issued;
    hide Set;
  }

  lemma MovedPend(s: Server, id: Uuid, m: Move)
    requires CanMove(s, id, m)
    ensures var t, l' := Moved(s, id, m), MoveNext(LocalOf(s, id), m);
      t.conns == s.conns[id := l'.conn] && t.pending == Set(s.pending, id, l'.pend) && t.now == s.now
  {
    hide MoveNext;
    hide MoveAllowed;
    hide RowsOf;
    hide UpBytes;
    hide DownBytes;
  }

  /** The acknowledgement is for this ticket, and was checked in time. */
  predicate Usable(s: Server, id: Uuid, ack: Ack) {
    && id in s.pending && id in s.conns
    && s.pending[id] == Pending(ack.agent, TicketHash(ack.ticket), s.conns[id].expires)
    && ack.at < s.conns[id].expires && ack.at <= s.now
  }

  lemma MoveRefines(s: Server, id: Uuid, m: Move)
    requires CanMove(s, id, m)
    requires m.Purge? ==> m.at == s.now
    requires m.Consume? ==> Usable(s, id, m.ack)
    ensures var b, d, w := BookOf(s), BookOf(Moved(s, id, m)), MoveMeaning(LocalOf(s, id), id, m);
      if w == [] then d == b else |w| == 1 && TicketAllowed(b, w[0]) && d == TicketNext(b, w[0])
  {
    hide Moved;
    hide MoveNext;
    MovedBook(s, id, m);
    PendField(LocalOf(s, id), m);
    assert m.AddPending? ==> id !in BookOf(s).issued;
    BookChanges(BookOf(s), BookOf(Moved(s, id, m)), LocalOf(s, id), id, m);
  }

  lemma BookChanges(b: Book, d: Book, l: Local, id: Uuid, m: Move)
    requires id in b.uses && l.pend == Get(b.tickets, id)
    requires m.AddPending? ==> id !in b.issued
    requires m.Purge? ==> l.pend.Some? && l.pend.value.expires <= b.now
    requires m.Consume? ==> l.pend.Some? && m.ack.at <= b.now && TicketMatches(l.pend.value, m.ack.agent, m.ack.ticket, m.ack.at)
    requires d.now == b.now && d.tickets == Set(b.tickets, id, PendAfter(l, m))
    requires d.issued == if m.AddPending? then b.issued + {id} else b.issued
    requires d.uses == b.uses[id := b.uses[id] + (if m.Consume? then [m.ack] else [])]
    ensures var w := MoveMeaning(l, id, m);
      if w == [] then d == b else |w| == 1 && TicketAllowed(b, w[0]) && d == TicketNext(b, w[0])
  {
    SetSame(b.tickets, id);
    assert b.uses[id] + [] == b.uses[id];
    assert b.uses[id := b.uses[id]] == b.uses;
  }

  lemma SetSame<V>(m: map<Uuid, V>, id: Uuid)
    ensures Set(m, id, Get(m, id)) == m
  {
  }

  /** Refinement: every step of the server, in any interleaving of acknowledgement callers, timeouts,
      cleanup and UDP listeners, is one atomic step of the ticket book or leaves the book alone. The
      removal of a caller that passed its check is the atomic check-and-consume. */
  lemma StepRefinesTickets(s: Server, step: Step)
    requires ServerOk(s) && Possible(s, step)
    ensures var b, d, w := BookOf(s), BookOf(Next(s, step)), MeaningOf(s, step);
      if w == [] then d == b else |w| == 1 && TicketAllowed(b, w[0]) && d == TicketNext(b, w[0])
  {
    hide ServerOk;
    hide MoveAllowed;
    var p := PartOf(s, step);
    BookOfCore(s, step);
    if p.MovePart? {
      MeaningIsOfPart(s, step);
      assert p.m.Purge? ==> p.m.at == s.now;
      hide Next;
      hide Possible;
      hide BookOf;
      hide TicketAllowed;
      hide TicketNext;
      if p.m.Consume? {
        ConsumeFits(s, step);
      }
      hide PartOf;
      hide MeaningOf;
      hide MoveMeaning;
      MoveRefines(s, p.id, p.m);
      assert BookOf(PartNext(s, p)).now == s.now by {
        MovedBook(s, p.id, p.m);
        BookNow(s);
      }
    } else if p.BirthPart? {
      hide Next;
      assert MeaningOf(s, step) == [Meet(p.id)];
      hide Possible;
      hide PartOf;
      hide MeaningOf;
      BirthBook(s, p.id, p.c);
    } else {
      ClockStep(s, step);
    }
  }

  lemma BookNow(s: Server)
    ensures BookOf(s).now == s.now
  {
  }

  lemma BirthBook(s: Server, id: Uuid, c: Conn)
    requires id !in s.conns && c.acks == [] && !Issued(c.phase)
    ensures BookOf(Born(s, id, c)) == BookOf(s).(uses := BookOf(s).uses[id := []])
  {
    hide Issued;
    assert IssuedIn(s.conns[id := c]) == IssuedIn(s.conns);
    assert UsesIn(s.conns[id := c]) == UsesIn(s.conns)[id := []];
  }

  /** A step that concerns no connection passes time or leaves the clock alone. */
  lemma ClockStep(s: Server, step: Step)
    requires Possible(s, step) && PartOf(s, step) == NoPart
    ensures Next(s, step).now == s.now + (if step.Tick? then step.d else 0)
  {
  }

  lemma MeaningIsOfPart(s: Server, step: Step)
    requires Possible(s, step)
    ensures PartOf(s, step).MovePart? ==>
              CanMove(s, PartOf(s, step).id, PartOf(s, step).m)
              && MeaningOf(s, step) == MoveMeaning(LocalOf(s, PartOf(s, step).id), PartOf(s, step).id, PartOf(s, step).m)
  {
    StepIsPart(s, step);
    hide MoveAllowed;
  }

  lemma BookOfCore(s: Server, step: Step)
    requires Possible(s, step)
    ensures PartAllowed(s, PartOf(s, step))
    ensures BookOf(Next(s, step)) == BookOf(PartNext(s, PartOf(s, step))).(now := Next(s, step).now)
    ensures !PartOf(s, step).NoPart? ==> Next(s, step).now == s.now
  {
    StepIsPart(s, step);
    var t, u := Next(s, step), PartNext(s, PartOf(s, step));
    assert t.conns == Core(t).conns && u.conns == Core(u).conns && t.pending == Core(t).pending && u.pending == Core(u).pending;
    assert !PartOf(s, step).NoPart? ==> Next(s, step).now == s.now by {
      hide MoveAllowed;
      hide MoveNext;
      hide RowsOf;
    }
    hide Next;
    hide PartNext;
    hide Possible;
    hide PartOf;
    hide Issued;
  }

  lemma ConsumeFits(s: Server, step: Step)
    requires ServerOk(s) && Possible(s, step) && PartOf(s, step).MovePart? && PartOf(s, step).m.Consume?
    ensures Usable(s, PartOf(s, step).id, PartOf(s, step).m.ack)
  {
    var c := s.calls[step.call];
    ServerConns(s);
    assert CallOk(s, c);
    hide ServerOk;
    hide LocalOk;
    PendingIsFresh(LocalOf(s, c.id));
  }

  // ---------------------------------------------------------------- runs

  ghost function Meanings(s: Server, steps: seq<Step>, t: Server): seq<TicketStep>
    requires Run(s, steps, t)
    decreases |steps|
  {
    if steps == [] then [] else MeaningOf(s, steps[0]) + Meanings(Next(s, steps[0]), steps[1..], t)
  }

  lemma {:induction false} RunRefinesTickets(s: Server, steps: seq<Step>, t: Server)
    requires ServerOk(s) && Run(s, steps, t)
    ensures TicketRun(BookOf(s), Meanings(s, steps, t), BookOf(t))
    decreases |steps|
  {
    hide ServerOk;
    hide Next;
    hide Possible;
    hide MeaningOf;
    hide BookOf;
    hide TicketAllowed;
    hide TicketNext;
    if steps != [] {
      var w, rest := MeaningOf(s, steps[0]), Meanings(Next(s, steps[0]), steps[1..], t);
      StepRefinesTickets(s, steps[0]);
      StepKeepsServerOk(s, steps[0]);
      RunRefinesTickets(Next(s, steps[0]), steps[1..], t);
      if w == [] {
        assert w + rest == rest;
      } else {
        assert (w + rest)[0] == w[0] && (w + rest)[1..] == rest;
      }
    }
  }

  /** An atomic book uses each ticket at most once, and never one it did not issue. */
  predicate BookOk(b: Book) {
    && (forall id :: id in b.tickets ==> id in b.issued && id in b.uses && b.uses[id] == [])
    && (forall id :: id in b.issued ==> id in b.uses)
    && (forall id :: id in b.uses ==> |b.uses[id]| <= 1 && (b.uses[id] != [] ==> id in b.issued))
  }

  lemma {:induction false} BooksUseTicketsOnce(b: Book, steps: seq<TicketStep>, d: Book)
    requires BookOk(b) && TicketRun(b, steps, d)
    ensures BookOk(d)
    ensures forall id :: id in d.uses ==> |d.uses[id]| <= 1 && (d.uses[id] != [] ==> id in d.issued && id !in d.tickets)
    decreases |steps|
  {
    if steps != [] {
      assert BookOk(TicketNext(b, steps[0]));
      BooksUseTicketsOnce(TicketNext(b, steps[0]), steps[1..], d);
    }
  }

  /** What a caller is told agrees with the book: its acknowledgement succeeds exactly when its removal is
      the atomic use of the ticket, and a removal that fails finds the ticket used, withdrawn or expired. */
  lemma CallerIsToldTheTruth(s: Server, call: nat)
    requires ServerOk(s) && Possible(s, Remove(call))
    ensures var c, t := s.calls[call], Next(s, Remove(call));
      && (call in t.calls <==> MeaningOf(s, Remove(call)) == [Acknowledge(c.id, c.ack)])
      && (call !in t.calls <==> c.id !in BookOf(s).tickets)
      && (call !in t.calls ==> BookOf(t) == BookOf(s) && c.id in BookOf(s).issued)
  {
    ServerConns(s);
    assert CallOk(s, s.calls[call]);
    hide ServerOk;
    hide LocalOk;
    StepRefinesTickets(s, Remove(call));
  }

  /** So any run of the server is a run of the atomic book, which uses no ticket twice. */
  lemma {:induction false} ServerIsAnAtomicBook(ttl: nat, udpTimeout: nat, steps: seq<Step>, t: Server)
    requires Run(Initial(ttl, udpTimeout), steps, t)
    ensures TicketRun(BookOf(Initial(ttl, udpTimeout)), Meanings(Initial(ttl, udpTimeout), steps, t), BookOf(t))
    ensures forall id :: id in t.conns ==> |t.conns[id].acks| <= 1 && (t.conns[id].acks != [] ==> id !in t.pending)
  {
    var s := Initial(ttl, udpTimeout);
    InitialIsOk(ttl, udpTimeout);
    assert BookOk(BookOf(s));
    hide BookOf;
    hide BookOk;
    hide Initial;
    RunRefinesTickets(s, steps, t);
    BooksUseTicketsOnce(BookOf(s), Meanings(s, steps, t), BookOf(t));
    UsesAre(t);
  }

  lemma UsesAre(t: Server)
    ensures BookOf(t).uses.Keys == t.conns.Keys && BookOf(t).tickets == t.pending
    ensures forall id :: id in t.conns ==> BookOf(t).uses[id] == t.conns[id].acks
  {
  }
}
