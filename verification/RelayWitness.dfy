/** Runs that reach what the theorems warn of, over the real bytes of any carrier: the two stalls, both of
    them with everything full in both directions, and a heartbeat that cuts a record and corrupts a stream. */
module RelayWitness {
  import opened Bytes
  import opened Protocol
  import opened Records
  import opened Pipeline
  import opened Relay
  import opened RelayProgress
  import opened RelayRest
  import opened RelayStall
  import opened RelayBytes

  // ---------------------------------------------------------------- reachable states

  /** Some run from `b` that cuts no record leads to `c`. */
  ghost predicate CLeads(wire: Wire, b: CState, c: CState) {
    exists csteps :: CRun(wire, b, csteps, c) && CutsNoRecord(wire, b, csteps)
  }

  ghost predicate CReached(wire: Wire, c: CState) {
    CLeads(wire, CINITIAL, c)
  }

  lemma {:induction false} CRunThen(wire: Wire, c: CState, csteps: seq<CStep>, d: CState, cs: CStep)
    requires CRun(wire, c, csteps, d) && CPossible(wire, d, cs)
    ensures CRun(wire, c, csteps + [cs], CNext(wire, d, cs))
    ensures CutsNoRecord(wire, c, csteps) && Lossless(d, cs) ==> CutsNoRecord(wire, c, csteps + [cs])
    decreases |csteps|
  {
    hide CPossible;
    hide CNext;
    var all := csteps + [cs];
    if csteps == [] {
      assert all[0] == cs && all[1..] == [];
      assert CRun(wire, CNext(wire, d, cs), [], CNext(wire, d, cs));
    } else {
      assert all[0] == csteps[0] && all[1..] == csteps[1..] + [cs];
      CRunThen(wire, CNext(wire, c, csteps[0]), csteps[1..], d, cs);
    }
  }

  lemma CLeadsNext(wire: Wire, b: CState, c: CState, cs: CStep, d: CState)
    requires CLeads(wire, b, c) && CPossible(wire, c, cs) && Lossless(c, cs) && CNext(wire, c, cs) == d
    ensures CLeads(wire, b, d)
  {
    hide CPossible;
    hide CNext;
    var csteps :| CRun(wire, b, csteps, c) && CutsNoRecord(wire, b, csteps);
    CRunThen(wire, b, csteps, c, cs);
  }

  lemma CReachNext(wire: Wire, c: CState, cs: CStep, d: CState)
    requires CReached(wire, c) && CPossible(wire, c, cs) && Lossless(c, cs) && CNext(wire, c, cs) == d
    ensures CReached(wire, d)
  {
    CLeadsNext(wire, CINITIAL, c, cs, d);
  }

  const NO_LINK := Link([], [], [])

  /** A relay with nothing on its carriers. */
  function Quiet(s: State): CState {
    CState(s, NO_LINK, NO_LINK)
  }

  ghost predicate Reached(wire: Wire, s: State) {
    CReached(wire, Quiet(s))
  }

  /** What is reached with nothing on the carriers is reachable at message level too. */
  lemma ReachedIsReachable(wire: Wire, s: State)
    requires Faithful(wire) && Reached(wire, s)
    ensures Reachable(s)
  {
    var csteps :| CRun(wire, CINITIAL, csteps, Quiet(s)) && CutsNoRecord(wire, CINITIAL, csteps);
    var steps, a := RefinedFromTheStart(wire, csteps, Quiet(s));
    NothingHeld(wire, a.down.flight);
    NothingHeld(wire, a.up.flight);
    assert Bare(a) == a;
  }

  lemma NothingHeld(wire: Wire, ms: seq<Msg>)
    requires Holds(wire, NO_LINK, ms)
    ensures ms == []
  {
    if ms != [] {
      SomethingHeld(wire, ms);
      assert false;
    }
  }

  lemma {:induction false} SomethingHeld(wire: Wire, ms: seq<Msg>)
    requires ms != []
    ensures |Serialize(PackAll(wire, ms))| >= HEADER
  {
    PackHead(wire, ms);
  }

  lemma Plain(wire: Wire, s: State, step: Step, t: State)
    requires Reached(wire, s) && Possible(s, step) && !TouchesCarrier(step) && Next(s, step) == t
    ensures Reached(wire, t)
  {
    hide CReached;
    CReachNext(wire, Quiet(s), CStep.Other(step), Quiet(t));
  }

  // ---------------------------------------------------------------- one message across a carrier

  /** `k` bytes of the one record on a carrier have been read. */
  function Crossed(s: State, down: bool, w: seq<byte>, k: nat): CState
    requires k <= |w|
  {
    WithLink(Quiet(s), down, Link(w[k..], [], w[..k]))
  }

  lemma OneByte(wire: Wire, b: CState, s: State, down: bool, r: Record, k: nat)
    requires Faithful(wire) && |r.payload| <= MAX_RECORD && k < |WriteRecord(r)| && ReaderFree(s, down)
    requires CLeads(wire, b, Crossed(s, down, WriteRecord(r), k))
    ensures CLeads(wire, b, Crossed(s, down, WriteRecord(r), k + 1))
  {
    hide CLeads;
    hide WriteRecord;
    hide Faithful;
    assert wire.window > 0 by {
      WindowIsOpen(wire);
    }
    var w := WriteRecord(r);
    var c := Crossed(s, down, w, k);
    var d := WithLink(Quiet(s), down, Link(w[k + 1..], [w[k]], w[..k]));
    assert w[k..][1..] == w[k + 1..] && [] + w[k..][..1] == [w[k]];
    CLeadsNext(wire, b, c, CStep.Flush(down, 1), d);
    PartialRecord(r, k);
    assert [w[k]][1..] == [] && w[..k] + [w[k]] == w[..k + 1];
    CLeadsNext(wire, b, d, CStep.Pull(down), Crossed(s, down, w, k + 1));
  }

  lemma WindowIsOpen(wire: Wire)
    requires Faithful(wire)
    ensures wire.window > 0
  {
  }

  lemma {:induction false} BytesCross(wire: Wire, b: CState, s: State, down: bool, r: Record, k: nat)
    requires Faithful(wire) && |r.payload| <= MAX_RECORD && k <= |WriteRecord(r)| && ReaderFree(s, down)
    requires CLeads(wire, b, Crossed(s, down, WriteRecord(r), 0))
    ensures CLeads(wire, b, Crossed(s, down, WriteRecord(r), k))
  {
    hide CLeads;
    if k > 0 {
      BytesCross(wire, b, s, down, r, k - 1);
      OneByte(wire, b, s, down, r, k - 1);
    }
  }

  /** The relay after its writer has taken the first message of the control channel or the outbound one. */
  function Taken(s: State, down: bool, control: bool): State
    requires if control then DirOf(s, down).ctl != [] else DirOf(s, down).chan != []
  {
    var d := DirOf(s, down);
    WithDir(s, down, if control then d.(ctl := d.ctl[1..]) else d.(chan := d.chan[1..]))
  }

  lemma Sent(wire: Wire, s: State, down: bool, control: bool, m: Msg)
    requires Reached(wire, s)
    requires if control then DirOf(s, down).ctl != [] && DirOf(s, down).ctl[0] == m
             else DirOf(s, down).chan != [] && DirOf(s, down).chan[0] == m
    ensures CReached(wire, Crossed(Taken(s, down, control), down, WriteRecord(Pack(wire, m)), 0))
  {
    hide CReached;
    hide WriteRecord;
    var w := WriteRecord(Pack(wire, m));
    assert w[0..] == w && w[..0] == [];
    CReachNext(wire, Quiet(s), if control then CStep.SendControl(down) else CStep.SendFrame(down),
               Crossed(Taken(s, down, control), down, w, 0));
  }

  /** One message crosses an empty carrier, whatever its network holds. */
  lemma Crossing(wire: Wire, s: State, down: bool, control: bool, m: Msg, heed: bool, t: State)
    requires Faithful(wire) && Reached(wire, s) && Sendable(m) && ReaderFree(s, down)
    requires if control then DirOf(s, down).ctl != [] && DirOf(s, down).ctl[0] == m
             else DirOf(s, down).chan != [] && DirOf(s, down).chan[0] == m
    requires Possible(Facing(Taken(s, down, control), down, m), Taking(down, m, heed))
    requires t == Next(Facing(Taken(s, down, control), down, m), Taking(down, m, heed))
    ensures Reached(wire, t)
  {
    hide CLeads;
    hide Next;
    hide Possible;
    var s', r := Taken(s, down, control), Pack(wire, m);
    PackUnpack(wire, m);
    hide Faithful;
    Sent(wire, s, down, control, m);
    BytesCross(wire, CINITIAL, s', down, r, |WriteRecord(r)|);
    Arriving(wire, CINITIAL, s', down, m, heed, t);
  }

  lemma Arriving(wire: Wire, b: CState, s: State, down: bool, m: Msg, heed: bool, t: State)
    requires CLeads(wire, b, Crossed(s, down, WriteRecord(Pack(wire, m)), |WriteRecord(Pack(wire, m))|))
    requires |Pack(wire, m).payload| <= MAX_RECORD && Unpack(wire, Pack(wire, m)) == Some(m) && ReaderFree(s, down)
    requires Possible(Facing(s, down, m), Taking(down, m, heed)) && t == Next(Facing(s, down, m), Taking(down, m, heed))
    ensures CLeads(wire, b, Quiet(t))
  {
    hide CLeads;
    hide Next;
    hide Possible;
    hide Pack;
    hide Unpack;
    var w := WriteRecord(Pack(wire, m));
    RecordRoundTrip(Pack(wire, m), []);
    assert w + [] == w && w[|w|..] == [] && w[..|w|] == w;
    hide WriteRecord;
    hide ReadRecord;
    CLeadsNext(wire, b, Crossed(s, down, w, |w|), CStep.Receive(down, heed), Quiet(t));
  }

  // ---------------------------------------------------------------- one connection

  /** A relay with one connection and nothing in transit. */
  function One(id: Uuid, l: Local): State {
    State(NEW_DIR.(halves := map[id := l.down]), NEW_DIR.(halves := map[id := l.up]), map[id := l.conn], false)
  }

  function WithUp(s: State, chan: seq<Msg>, hand: Option<CarrierFrame>): State {
    s.(up := s.up.(chan := chan, hand := hand))
  }

  lemma PlainShake(wire: Wire, id: Uuid, l: Local, h: Shake)
    requires h != Accept && h != TakeOpen && h != SendAnswer && !TakesAnswer(h)
    requires LocalAllows(l, h) && Reached(wire, One(id, l))
    ensures Reached(wire, One(id, LocalNext(l, h)))
  {
    hide Reached;
    Plain(wire, One(id, l), Handshake(id, h), One(id, LocalNext(l, h)));
  }

  lemma UpHalfStep(wire: Wire, id: Uuid, l: Local, st: DirStep, g: Half)
    requires st.Arrive? || st.Read? || st.BreakSink?
    requires st.id == id && Enabled(One(id, l).up, st) && Apply(One(id, l).up, st) == Put(One(id, l).up, id, g)
    requires Reached(wire, One(id, l))
    ensures Reached(wire, One(id, l.(up := g)))
  {
    hide Reached;
    Plain(wire, One(id, l), Up(st), One(id, l.(up := g)));
  }

  lemma DownHalfStep(wire: Wire, id: Uuid, l: Local, st: DirStep, g: Half)
    requires st.Arrive? || st.Read?
    requires st.id == id && Enabled(One(id, l).down, st) && Apply(One(id, l).down, st) == Put(One(id, l).down, id, g)
    requires Reached(wire, One(id, l))
    ensures Reached(wire, One(id, l.(down := g)))
  {
    hide Reached;
    Plain(wire, One(id, l), Down(st), One(id, l.(down := g)));
  }

  /** A connection that has not bridged yet. */
  function Early(server: ServerPhase, agent: AgentPhase, registered: bool): Local {
    Local(Conn(server, agent, Waits(server), true, registered),
          if registered then NEW_HALF.(receiver := Listening) else NEW_HALF, NEW_HALF.(receiver := Listening))
  }

  lemma Begins(wire: Wire)
    ensures Reached(wire, INITIAL)
  {
    assert CRun(wire, CINITIAL, [], CINITIAL) && CutsNoRecord(wire, CINITIAL, []);
  }

  lemma OpenArrives(wire: Wire, id: Uuid)
    requires Faithful(wire)
    ensures Reached(wire, One(id, Early(SWaiting, ADialing, false)))
  {
    hide Reached;
    hide Faithful;
    Begins(wire);
    var l := Early(SWaiting, ANone, false);
    var s := One(id, l).(down := One(id, l).down.(ctl := [Open(id)]));
    assert LocalNext(FRESH, Accept) == l;
    Plain(wire, INITIAL, Handshake(id, Accept), s);
    OpenCrosses(wire, id, s, l);
  }

  lemma OpenCrosses(wire: Wire, id: Uuid, s: State, l: Local)
    requires Faithful(wire) && Reached(wire, s) && l == Early(SWaiting, ANone, false)
    requires s == One(id, l).(down := One(id, l).down.(ctl := [Open(id)]))
    ensures Reached(wire, One(id, Early(SWaiting, ADialing, false)))
  {
    hide Reached;
    hide Faithful;
    assert LocalNext(l, TakeOpen) == Early(SWaiting, ADialing, false);
    assert Taken(s, true, true) == One(id, l);
    assert LocalOf(Facing(One(id, l), true, Open(id)), id) == l;
    Crossing(wire, s, true, true, Open(id), true, One(id, Early(SWaiting, ADialing, false)));
  }

  lemma Dialled(wire: Wire, id: Uuid)
    requires Faithful(wire)
    ensures Reached(wire, One(id, Early(SWaiting, ARegistered, true)))
  {
    hide Reached;
    OpenArrives(wire, id);
    hide Faithful;
    PlainShake(wire, id, Early(SWaiting, ADialing, false), DialOk);
    assert LocalNext(Early(SWaiting, ADialing, false), DialOk) == Early(SWaiting, ARegistered, true);
  }

  /** The acceptance crosses, and is heeded, or ignored because its ticket has expired. */
  lemma AnswerArrives(wire: Wire, id: Uuid, heed: bool)
    requires Faithful(wire)
    ensures Reached(wire, One(id, Early(if heed then SAccepted else SUnheard, AAccepted, true)))
  {
    hide Reached;
    var l := Early(SWaiting, AAccepted, true);
    var s := WithUp(One(id, l), [Ack(id, true)], None);
    Dialled(wire, id);
    hide Faithful;
    assert LocalNext(Early(SWaiting, ARegistered, true), SendAnswer) == l;
    Plain(wire, One(id, Early(SWaiting, ARegistered, true)), Handshake(id, SendAnswer), s);
    AnswerCrosses(wire, id, heed, s, l);
  }

  lemma AnswerCrosses(wire: Wire, id: Uuid, heed: bool, s: State, l: Local)
    requires Faithful(wire) && Reached(wire, s) && l == Early(SWaiting, AAccepted, true)
    requires s == WithUp(One(id, l), [Ack(id, true)], None)
    ensures Reached(wire, One(id, Early(if heed then SAccepted else SUnheard, AAccepted, true)))
  {
    hide Reached;
    hide Faithful;
    var h := if heed then TakeAnswer(true) else IgnoreAnswer(true);
    assert LocalNext(l, h) == Early(if heed then SAccepted else SUnheard, AAccepted, true);
    assert Taken(s, false, false) == One(id, l);
    assert LocalOf(Facing(One(id, l), false, Ack(id, true)), id) == l;
    Crossing(wire, s, false, false, Ack(id, true), heed, One(id, Early(if heed then SAccepted else SUnheard, AAccepted, true)));
  }

  function Started(id: Uuid): Local {
    var h := NEW_HALF.(receiver := Listening, source := Reading, sink := Waiting);
    Local(Conn(SBridging, ABridging, false, true, true), h, h)
  }

  lemma BothBridging(wire: Wire, id: Uuid)
    requires Faithful(wire)
    ensures Reached(wire, One(id, Started(id)))
  {
    hide Reached;
    AnswerArrives(wire, id, true);
    hide Faithful;
    var l1 := Early(SAccepted, AAccepted, true);
    PlainShake(wire, id, l1, AgentStart);
    PlainShake(wire, id, LocalNext(l1, AgentStart), ServerStart);
    assert LocalNext(LocalNext(l1, AgentStart), ServerStart) == Started(id);
  }

  // ---------------------------------------------------------------- the stalls

  function Repeat<T>(x: T, n: nat): (r: seq<T>)
    ensures |r| == n
  {
    if n == 0 then [] else Repeat(x, n - 1) + [x]
  }

  function ZeroFrame(id: Uuid): CarrierFrame {
    DataFrame(id, [0])
  }

  /** Why the server does not read the stream's channel. */
  datatype Cause = FailedWriter | IgnoredAnswer

  /** The agent's half after `n` one-byte frames, of which `m` have been queued at the server. */
  function FilledUp(id: Uuid, cause: Cause, n: nat, m: nat): Half {
    Half([], false, Repeat(0, n), Reading, Repeat(ZeroFrame(id), n), Listening, Repeat(ZeroFrame(id), m), [],
         if cause == FailedWriter then Broken else Unstarted, [])
  }

  function Filled(id: Uuid, cause: Cause, n: nat, m: nat): Local {
    Local(Conn(if cause == FailedWriter then SBridging else SUnheard, ABridging, cause == IgnoredAnswer, true, true),
          NEW_HALF.(receiver := Listening, source := if cause == FailedWriter then Reading else Idle, sink := Waiting),
          FilledUp(id, cause, n, m))
  }

  lemma Unread(wire: Wire, id: Uuid, cause: Cause)
    requires Faithful(wire)
    ensures Reached(wire, One(id, Filled(id, cause, 0, 0)))
  {
    hide Reached;
    if cause == FailedWriter {
      BothBridging(wire, id);
      hide Faithful;
      UpHalfStep(wire, id, Started(id), BreakSink(id), FilledUp(id, FailedWriter, 0, 0));
      assert Started(id).(up := FilledUp(id, FailedWriter, 0, 0)) == Filled(id, FailedWriter, 0, 0);
    } else {
      AnswerArrives(wire, id, false);
      hide Faithful;
      PlainShake(wire, id, Early(SUnheard, AAccepted, true), AgentStart);
      assert LocalNext(Early(SUnheard, AAccepted, true), AgentStart) == Filled(id, IgnoredAnswer, 0, 0);
    }
  }

  /** One more frame is sent ... */
  lemma OneMoreSent(wire: Wire, id: Uuid, cause: Cause, n: nat)
    requires Reached(wire, One(id, Filled(id, cause, n, n)))
    ensures Reached(wire, WithUp(One(id, Filled(id, cause, n + 1, n)), [Carry(ZeroFrame(id))], None))
  {
    hide Reached;
    var l, h := Filled(id, cause, n, n), FilledUp(id, cause, n, n);
    assert [] + [0] == [0];
    UpHalfStep(wire, id, l, Arrive(id, [0]), h.(unread := [0]));
    var h1 := h.(unread := [0]);
    UpHalfStep(wire, id, l.(up := h1), Read(id, 1), AfterRead(h1, id, 1));
    var h2 := AfterRead(h1, id, 1);
    Emitted(wire, id, cause, n, h2);
  }

  lemma Emitted(wire: Wire, id: Uuid, cause: Cause, n: nat, h: Half)
    requires h == AfterRead(FilledUp(id, cause, n, n).(unread := [0]), id, 1)
    requires Reached(wire, One(id, Filled(id, cause, n, n).(up := h)))
    ensures Reached(wire, WithUp(One(id, Filled(id, cause, n + 1, n)), [Carry(ZeroFrame(id))], None))
  {
    hide Reached;
    assert h.source == Holding(ZeroFrame(id)) && AfterEmit(h) == FilledUp(id, cause, n + 1, n);
    Plain(wire, One(id, Filled(id, cause, n, n).(up := h)), Up(Emit(id)),
          WithUp(One(id, Filled(id, cause, n + 1, n)), [Carry(ZeroFrame(id))], None));
  }

  /** ... gets as far as the router's hand ... */
  lemma OneMoreArrives(wire: Wire, id: Uuid, cause: Cause, n: nat)
    requires Faithful(wire) && Reached(wire, One(id, Filled(id, cause, n, n)))
    ensures Reached(wire, WithUp(One(id, Filled(id, cause, n + 1, n)), [], Some(ZeroFrame(id))))
  {
    hide Reached;
    hide Faithful;
    OneMoreSent(wire, id, cause, n);
    var l := Filled(id, cause, n + 1, n);
    var s := WithUp(One(id, l), [Carry(ZeroFrame(id))], None);
    assert Taken(s, false, false) == One(id, l);
    hide Filled;
    Crossing(wire, s, false, false, Carry(ZeroFrame(id)), true, WithUp(One(id, l), [], Some(ZeroFrame(id))));
  }

  /** ... and into the stream's channel. */
  lemma OneMoreQueued(wire: Wire, id: Uuid, cause: Cause, n: nat)
    requires Reached(wire, WithUp(One(id, Filled(id, cause, n + 1, n)), [], Some(ZeroFrame(id)))) && n < STREAM_SLOTS
    ensures Reached(wire, One(id, Filled(id, cause, n + 1, n + 1)))
  {
    hide Reached;
    assert AfterRoute(FilledUp(id, cause, n + 1, n), ZeroFrame(id)) == FilledUp(id, cause, n + 1, n + 1);
    Plain(wire, WithUp(One(id, Filled(id, cause, n + 1, n)), [], Some(ZeroFrame(id))), Up(Route), One(id, Filled(id, cause, n + 1, n + 1)));
  }

  lemma {:induction false} FillTo(wire: Wire, id: Uuid, cause: Cause, n: nat)
    requires Faithful(wire) && n <= STREAM_SLOTS
    ensures Reached(wire, WithUp(One(id, Filled(id, cause, n + 1, n)), [], Some(ZeroFrame(id))))
  {
    hide Reached;
    hide Faithful;
    if n > 0 {
      FillTo(wire, id, cause, n - 1);
      OneMoreQueued(wire, id, cause, n - 1);
    } else {
      Unread(wire, id, cause);
    }
    OneMoreArrives(wire, id, cause, n);
  }

  function Stalled(id: Uuid, cause: Cause): State {
    WithUp(One(id, Filled(id, cause, STREAM_SLOTS + 1, STREAM_SLOTS)), [], Some(ZeroFrame(id)))
  }

  lemma StalledShakes(id: Uuid, cause: Cause, j: Uuid, h: Shake)
    requires Internal(Handshake(j, h))
    ensures !Possible(Stalled(id, cause), Handshake(j, h))
  {
    if j == id {
      assert LocalOf(Stalled(id, cause), id) == Filled(id, cause, STREAM_SLOTS + 1, STREAM_SLOTS);
    }
  }

  lemma StalledRests(id: Uuid, cause: Cause, step: Step)
    requires Internal(step)
    ensures !Possible(Stalled(id, cause), step)
  {
    if step.Handshake? {
      StalledShakes(id, cause, step.id, step.h);
    }
  }

  lemma StalledIsResting(wire: Wire, id: Uuid, cause: Cause)
    ensures CResting(wire, Quiet(Stalled(id, cause)))
  {
    var c := Quiet(Stalled(id, cause));
    forall cs | CInternal(cs) ensures !CPossible(wire, c, cs) {
      if cs.Other? {
        StalledRests(id, cause, cs.step);
      }
    }
  }

  predicate Behind(cause: Cause, server: ServerPhase) {
    if cause == FailedWriter then server == SBridging else server == SUnheard
  }

  /** Over any carrier, every stream can stall it in either way: by a failed public writer, and by an answer
      that came too late, after which the agent has been told that it may send while the server does not read.
      The relay comes to rest, with nothing stuck, while the server's router still holds a frame. */
  lemma CarrierCanStall(wire: Wire, id: Uuid, cause: Cause)
    requires Faithful(wire)
    ensures exists c :: CReached(wire, c) && CResting(wire, c) && Stall(c.s, id) && Behind(cause, c.s.conns[id].server)
  {
    hide CReached;
    FillTo(wire, id, cause, STREAM_SLOTS);
    StalledIsResting(wire, id, cause);
    assert Stall(Quiet(Stalled(id, cause)).s, id);
    hide CRestingUnder;
  }

  // ---------------------------------------------------------------- everything full

  /** A stall behind which the agent can go on sending. */
  ghost predicate Filling(wire: Wire, c: CState, id: Uuid, cause: Cause) {
    && CReached(wire, c) && Stall(c.s, id) && Behind(cause, c.s.conns[id].server)
    && c.s.up.halves[id].source == Reading && c.s.up.halves[id].unread == [] && !c.s.up.halves[id].eof
    && !c.s.pinging && c.s.down.hand == None && |c.s.up.chan| <= CHANNEL_SLOTS
  }

  lemma FillingNext(wire: Wire, c: CState, cs: CStep, id: Uuid, cause: Cause)
    requires Filling(wire, c, id, cause) && CPossible(wire, c, cs) && (cs == CStep.SendFrame(false) || cs == CStep.Flush(false, 1))
    ensures Filling(wire, CNext(wire, c, cs), id, cause)
  {
    hide CReached;
    CReachNext(wire, c, cs, CNext(wire, c, cs));
  }

  lemma OneMoreWaits(wire: Wire, c: CState, id: Uuid, cause: Cause) returns (d: CState)
    requires Filling(wire, c, id, cause) && |c.s.up.chan| < CHANNEL_SLOTS
    ensures Filling(wire, d, id, cause) && d.up == c.up && |d.s.up.chan| == |c.s.up.chan| + 1
  {
    hide CReached;
    var h := c.s.up.halves[id];
    assert [] + [0] == [0];
    var c1 := CNext(wire, c, CStep.Other(Up(Arrive(id, [0]))));
    CReachNext(wire, c, CStep.Other(Up(Arrive(id, [0]))), c1);
    assert c1.s.up.halves[id] == h.(unread := [0]);
    var c2 := CNext(wire, c1, CStep.Other(Up(Read(id, 1))));
    CReachNext(wire, c1, CStep.Other(Up(Read(id, 1))), c2);
    d := EmitOne(wire, c, c2, id, cause);
  }

  lemma EmitOne(wire: Wire, c: CState, c2: CState, id: Uuid, cause: Cause) returns (d: CState)
    requires Filling(wire, c, id, cause) && |c.s.up.chan| < CHANNEL_SLOTS && CReached(wire, c2)
    requires c2 == c.(s := c.s.(up := Put(c.s.up, id, AfterRead(c.s.up.halves[id].(unread := [0]), id, 1))))
    ensures Filling(wire, d, id, cause) && d.up == c.up && |d.s.up.chan| == |c.s.up.chan| + 1
  {
    hide CReached;
    d := CNext(wire, c2, CStep.Other(Up(Emit(id))));
    CReachNext(wire, c2, CStep.Other(Up(Emit(id))), d);
  }

  lemma {:induction false} Fill(wire: Wire, c: CState, id: Uuid, cause: Cause) returns (d: CState)
    requires Faithful(wire) && Filling(wire, c, id, cause)
    ensures Filling(wire, d, id, cause) && d.up.out != [] && |d.up.net| >= wire.window && |d.s.up.chan| == CHANNEL_SLOTS
    decreases if |c.up.net| < wire.window then wire.window - |c.up.net| else 0, if c.up.out == [] then 1 else 0,
              CHANNEL_SLOTS - |c.s.up.chan|
  {
    hide Filling;
    hide Faithful;
    FillingRoom(wire, c, id, cause);
    if c.up.out != [] && |c.up.net| < wire.window {
      FillingNext(wire, c, CStep.Flush(false, 1), id, cause);
      d := Fill(wire, CNext(wire, c, CStep.Flush(false, 1)), id, cause);
    } else if c.up.out == [] && c.s.up.chan != [] {
      FillingNext(wire, c, CStep.SendFrame(false), id, cause);
      d := Fill(wire, CNext(wire, c, CStep.SendFrame(false)), id, cause);
    } else if |c.s.up.chan| < CHANNEL_SLOTS {
      d := OneMoreWaits(wire, c, id, cause);
      FillingRoom(wire, d, id, cause);
      d := Fill(wire, d, id, cause);
    } else {
      d := c;
    }
  }

  lemma FillingRoom(wire: Wire, c: CState, id: Uuid, cause: Cause)
    requires Filling(wire, c, id, cause)
    ensures |c.s.up.chan| <= CHANNEL_SLOTS
  {
  }

  /** Either stall can stop both directions, over any carrier, by sending on: the network towards the server
      fills, then the writer, then the outbound channel, and then the agent's reader waits to send its
      heartbeat. */
  lemma BothDirectionsCanStop(wire: Wire, id: Uuid, cause: Cause)
    requires Faithful(wire)
    ensures exists c :: CReached(wire, c) && FullyStalled(wire, c, id) && Behind(cause, c.s.conns[id].server)
  {
    hide CReached;
    FillTo(wire, id, cause, STREAM_SLOTS);
    assert Filling(wire, Quiet(Stalled(id, cause)), id, cause);
    var d := Fill(wire, Quiet(Stalled(id, cause)), id, cause);
    FullAndPinging(wire, d, id, cause);
  }

  lemma FullAndPinging(wire: Wire, d: CState, id: Uuid, cause: Cause)
    requires Filling(wire, d, id, cause) && d.up.out != [] && |d.up.net| >= wire.window && |d.s.up.chan| == CHANNEL_SLOTS
    ensures exists c :: CReached(wire, c) && FullyStalled(wire, c, id) && Behind(cause, c.s.conns[id].server)
  {
    hide CReached;
    var c := d.(s := d.s.(pinging := true));
    CReachNext(wire, d, CStep.Other(Heart(Tick)), c);
    assert FullyStalled(wire, c, id);
  }

  // ---------------------------------------------------------------- a cut record

  lemma CStepAccounts(wire: Wire, c: CState, cs: CStep, id: Uuid, down: bool)
    requires KeysOk(c.s) && CPossible(wire, c, cs)
    ensures KeysOk(CNext(wire, c, cs).s)
    ensures var h, h' := HalfOf(c.s, id, down), HalfOf(CNext(wire, c, cs).s, id, down);
      h'.read + h'.unread == h.read + h.unread + if cs.Other? then ArrivedIn(cs.step, id, down) else []
  {
    match cs
    case Other(step) =>
      StepAccountsForArrivals(c.s, step, id, down);
      StepKeepsKeys(c.s, step);
    case Receive(d, heed) =>
      var m := Unpack(wire, ReadRecord(LinkOf(c, d).got).record).value;
      TakingAccounts(c.s, d, m, heed, id, down);
      assert CNext(wire, c, cs).s == Next(Facing(c.s, d, m), Taking(d, m, heed));
      assert HalfOf(c.s, id, down).unread + [] == HalfOf(c.s, id, down).unread;
    case _ =>
      assert HalfOf(CNext(wire, c, cs).s, id, down) == HalfOf(c.s, id, down);
      assert HalfOf(c.s, id, down).unread + [] == HalfOf(c.s, id, down).unread;
  }

  lemma TakingAccounts(s: State, d: bool, m: Msg, heed: bool, id: Uuid, down: bool)
    requires KeysOk(s) && Possible(Facing(s, d, m), Taking(d, m, heed))
    ensures var t := Next(Facing(s, d, m), Taking(d, m, heed));
      KeysOk(t) && HalfOf(t, id, down).read + HalfOf(t, id, down).unread == HalfOf(s, id, down).read + HalfOf(s, id, down).unread
  {
    var f, step := Facing(s, d, m), Taking(d, m, heed);
    assert HalfOf(f, id, down) == HalfOf(s, id, down) && ArrivedIn(step, id, down) == [];
    StepAccountsForArrivals(f, step, id, down);
    StepKeepsKeys(f, step);
    hide Next;
    hide Possible;
    Associate(HalfOf(s, id, down).read + HalfOf(s, id, down).unread, [], []);
  }

  /** Whatever happens to records on the way, a near socket's bytes are read or still to be read. */
  lemma {:induction false} CRunAccounts(wire: Wire, c: CState, csteps: seq<CStep>, d: CState, id: Uuid, down: bool)
    requires KeysOk(c.s) && CRun(wire, c, csteps, d)
    ensures var h, h' := HalfOf(c.s, id, down), HalfOf(d.s, id, down);
      h'.read + h'.unread == h.read + h.unread + CArrived(csteps, id, down)
    decreases |csteps|
  {
    hide CPossible;
    hide CNext;
    hide KeysOk;
    hide HalfOf;
    var h := HalfOf(c.s, id, down);
    if csteps == [] {
      Associate(h.read + h.unread, [], []);
    } else {
      CStepAccounts(wire, c, csteps[0], id, down);
      CRunAccounts(wire, CNext(wire, c, csteps[0]), csteps[1..], d, id, down);
      Associate(h.read + h.unread, if csteps[0].Other? then ArrivedIn(csteps[0].step, id, down) else [], CArrived(csteps[1..], id, down));
    }
  }

  lemma {:induction false} CRunsJoin(wire: Wire, b: CState, s1: seq<CStep>, c: CState, s2: seq<CStep>, d: CState)
    requires CRun(wire, b, s1, c) && CRun(wire, c, s2, d)
    ensures CRun(wire, b, s1 + s2, d)
    decreases |s1|
  {
    hide CPossible;
    hide CNext;
    if s1 == [] {
      assert s1 + s2 == s2;
    } else {
      CRunsJoin(wire, CNext(wire, b, s1[0]), s1[1..], c, s2, d);
      assert (s1 + s2)[1..] == s1[1..] + s2 && (s1 + s2)[0] == s1[0];
    }
  }

  /** A stream whose data is itself in the carrier's format: a record with a data frame of its own identifier. */
  function Inner(id: Uuid): Record {
    Record(BINARY, Encoded(DataFrame(id, [9])))
  }

  function Nested(id: Uuid): seq<byte> {
    WriteRecord(Inner(id))
  }

  function Outer(id: Uuid): Record {
    Record(BINARY, Encoded(DataFrame(id, Nested(id))))
  }

  /** The public side's half of the stream, and the agent's part of it, once `Nested` has been sent. */
  function SentDown(id: Uuid): Half {
    Started(id).down.(read := Nested(id), emitted := [DataFrame(id, Nested(id))])
  }

  lemma NestedIsSent(wire: Wire, id: Uuid)
    requires Faithful(wire)
    ensures CReached(wire, Crossed(One(id, Started(id).(down := SentDown(id))), true, WriteRecord(Outer(id)), 0))
  {
    hide CReached;
    BothBridging(wire, id);
    hide Faithful;
    var l, n := Started(id), Nested(id);
    var h := l.down;
    hide Nested;
    var h1 := h.(unread := n);
    assert [] + n == n && n[..|n|] == n && n[|n|..] == [];
    NestedLength(id);
    DownHalfStep(wire, id, l, Arrive(id, n), h1);
    var h2 := AfterRead(h1, id, |n|);
    DownHalfStep(wire, id, l.(down := h1), Read(id, |n|), h2);
    assert h2 == h.(read := n, source := Holding(DataFrame(id, n)));
    NestedIsEmitted(wire, id, h2);
  }

  lemma NestedLength(id: Uuid)
    ensures |Nested(id)| == 23 && Nested(id)[0] == BINARY
  {
  }

  lemma NestedIsEmitted(wire: Wire, id: Uuid, h: Half)
    requires h == Started(id).down.(read := Nested(id), source := Holding(DataFrame(id, Nested(id))))
    requires Reached(wire, One(id, Started(id).(down := h)))
    ensures CReached(wire, Crossed(One(id, Started(id).(down := SentDown(id))), true, WriteRecord(Outer(id)), 0))
  {
    hide CReached;
    hide Nested;
    var m := Carry(DataFrame(id, Nested(id)));
    var t := One(id, Started(id).(down := SentDown(id)));
    var s := t.(down := t.down.(chan := [m]));
    assert AfterEmit(h) == SentDown(id);
    Plain(wire, One(id, Started(id).(down := h)), Down(Emit(id)), s);
    assert Taken(s, true, false) == t;
    Sent(wire, s, true, false, m);
  }

  /** The cut: the first 22 bytes, record header and frame header, are dropped, and what is left to be read is
      a record by itself. */
  lemma CutLeavesNested(id: Uuid)
    ensures var w := WriteRecord(Outer(id)); |w| == 45 && w[22..] == Nested(id)
  {
    NestedLength(id);
    var n := Nested(id);
    hide Nested;
    assert Encoded(DataFrame(id, n)) == [FRAME_DATA] + id + n;
  }

  lemma AfterTheCut(wire: Wire, b: CState, s: State, id: Uuid)
    requires Faithful(wire) && s == One(id, Started(id).(down := SentDown(id))) && b == Crossed(s, true, Nested(id), 0)
    ensures CLeads(wire, b, Quiet(s.(down := s.down.(hand := Some(DataFrame(id, [9]))))))
  {
    hide CLeads;
    var m := Carry(DataFrame(id, [9]));
    assert CRun(wire, b, [], b) && CutsNoRecord(wire, b, []);
    assert CLeads(wire, b, b) by {
      Itself(wire, b);
    }
    BytesCross(wire, b, s, true, Inner(id), |Nested(id)|);
    PackUnpack(wire, m);
    Arriving(wire, b, s, true, m, true, s.(down := s.down.(hand := Some(DataFrame(id, [9])))));
  }

  lemma Itself(wire: Wire, b: CState)
    ensures CLeads(wire, b, b)
  {
    assert CRun(wire, b, [], b) && CutsNoRecord(wire, b, []);
  }

  /** The frame nobody sent goes its way to the local socket. */
  /** The local half once the frame nobody sent is queued, taken and written. */
  function WrongDown(id: Uuid, queued: bool, sink: Sink, written: seq<byte>): Half {
    var f := DataFrame(id, [9]);
    SentDown(id).(queue := if queued then [f] else [], consumed := if queued then [] else [f], sink := sink, written := written)
  }

  function WrongState(id: Uuid, h: Half): State {
    One(id, Started(id).(down := h))
  }

  /** The frame nobody sent goes its way to the local socket. */
  lemma WrongBytesWritten(wire: Wire, b: CState, s: State, id: Uuid) returns (d: CState)
    requires s == One(id, Started(id).(down := SentDown(id)))
    requires CLeads(wire, b, Quiet(s.(down := s.down.(hand := Some(DataFrame(id, [9]))))))
    ensures CLeads(wire, b, d) && HalfOf(d.s, id, true).written == [9] && HalfOf(d.s, id, true).unread == []
    ensures HalfOf(d.s, id, true).read == Nested(id)
  {
    hide CLeads;
    hide Nested;
    var c1 := Quiet(WrongState(id, WrongDown(id, true, Sink.Waiting, [])));
    assert AfterRoute(SentDown(id), DataFrame(id, [9])) == WrongDown(id, true, Sink.Waiting, []);
    CLeadsNext(wire, b, Quiet(s.(down := s.down.(hand := Some(DataFrame(id, [9]))))), CStep.Other(Down(Route)), c1);
    d := WrongBytesTaken(wire, b, id);
  }

  lemma WrongBytesTaken(wire: Wire, b: CState, id: Uuid) returns (d: CState)
    requires CLeads(wire, b, Quiet(WrongState(id, WrongDown(id, true, Sink.Waiting, []))))
    ensures CLeads(wire, b, d) && HalfOf(d.s, id, true) == WrongDown(id, false, Sink.Waiting, [9])
  {
    hide CLeads;
    WrongBytesPopped(wire, b, id);
    hide Nested;
    var h2, h3 := WrongDown(id, false, Writing([9]), []), WrongDown(id, false, Sink.Waiting, [9]);
    assert [] + [9] == [9] && [9][..1] == [9];
    assert AfterWrite(h2, 1) == h3;
    d := Quiet(WrongState(id, h3));
    CLeadsNext(wire, b, Quiet(WrongState(id, h2)), CStep.Other(Down(Write(id, 1))), d);
  }

  lemma WrongBytesPopped(wire: Wire, b: CState, id: Uuid)
    requires CLeads(wire, b, Quiet(WrongState(id, WrongDown(id, true, Sink.Waiting, []))))
    ensures CLeads(wire, b, Quiet(WrongState(id, WrongDown(id, false, Writing([9]), []))))
  {
    hide CLeads;
    hide Nested;
    var h1, h2 := WrongDown(id, true, Sink.Waiting, []), WrongDown(id, false, Writing([9]), []);
    assert AfterPop(h1) == h2;
    CLeadsNext(wire, b, Quiet(WrongState(id, h1)), CStep.Other(Down(Pop(id))), Quiet(WrongState(id, h2)));
  }

  /** What a heartbeat in the middle of a record can do, over any carrier: a run with one such cut after which
      bytes have been written at the local socket that are not what the public socket received. Order and
      integrity of a stream do need that no record is cut. */
  lemma CutCanCorrupt(wire: Wire, id: Uuid)
    requires Faithful(wire)
    ensures exists csteps, d :: CRun(wire, CINITIAL, csteps, d) && id in d.s.conns
              && !(HalfOf(d.s, id, true).written <= CArrived(csteps, id, true))
  {
    var s := One(id, Started(id).(down := SentDown(id)));
    var w := WriteRecord(Outer(id));
    NestedIsSent(wire, id);
    CutLeavesNested(id);
    OuterFits(id);
    BytesCross(wire, CINITIAL, s, true, Outer(id), 22);
    var c, b := Crossed(s, true, w, 22), Crossed(s, true, Nested(id), 0);
    assert Nested(id)[0..] == Nested(id) && Nested(id)[..0] == [];
    assert CNext(wire, c, CStep.DropRead) == b;
    AfterTheCut(wire, b, s, id);
    var d := WrongBytesWritten(wire, b, s, id);
    Corrupted(wire, id, c, b, d);
  }

  lemma UnknownIsNew(s: State, id: Uuid)
    requires id !in s.conns
    ensures HalfOf(s, id, true) == NEW_HALF
  {
  }

  lemma OuterFits(id: Uuid)
    ensures |Outer(id).payload| <= MAX_RECORD
  {
    NestedLength(id);
  }

  lemma {:induction false} Corrupted(wire: Wire, id: Uuid, c: CState, b: CState, d: CState)
    requires CReached(wire, c) && CPossible(wire, c, DropRead) && CNext(wire, c, DropRead) == b && CLeads(wire, b, d)
    requires HalfOf(d.s, id, true).written == [9] && HalfOf(d.s, id, true).unread == [] && HalfOf(d.s, id, true).read == Nested(id)
    ensures exists csteps :: CRun(wire, CINITIAL, csteps, d) && id in d.s.conns
              && !(HalfOf(d.s, id, true).written <= CArrived(csteps, id, true))
  {
    hide CPossible;
    hide CNext;
    NestedLength(id);
    hide Nested;
    var past :| CRun(wire, CINITIAL, past, c) && CutsNoRecord(wire, CINITIAL, past);
    var later :| CRun(wire, b, later, d) && CutsNoRecord(wire, b, later);
    CRunThen(wire, CINITIAL, past, c, DropRead);
    CRunsJoin(wire, CINITIAL, past + [DropRead], b, later, d);
    var csteps := past + [DropRead] + later;
    CRunAccounts(wire, CINITIAL, csteps, d, id, true);
    assert HalfOf(CINITIAL.s, id, true) == NEW_HALF;
    var h := HalfOf(d.s, id, true);
    assert h.read + h.unread == NEW_HALF.read + NEW_HALF.unread + CArrived(csteps, id, true);
    assert h.read + [] == h.read && [] + [] + CArrived(csteps, id, true) == CArrived(csteps, id, true);
    if id !in d.s.conns {
      UnknownIsNew(d.s, id);
      assert false;
    }
  }

  // ---------------------------------------------------------------- the same at message level

  /** A codec that will do, so that nothing here is about no carrier at all. */
  function PlainEnc(m: Msg): seq<byte> {
    match m
    case Open(id) => [0] + id
    case Ack(id, accepted) => [if accepted then 1 else 2] + id
    case Ping => [3]
    case Pong => [4]
    case Carry(f) => Encoded(f)
  }

  function PlainDec(bs: seq<byte>): Option<Msg> {
    if bs == [3] then Some(Ping)
    else if bs == [4] then Some(Pong)
    else if |bs| != 17 then None
    else if bs[0] == 0 then Some(Open(bs[1..]))
    else Some(Ack(bs[1..], bs[0] == 1))
  }

  function PlainWire(window: nat): Wire {
    Wire(PlainEnc, PlainDec, window)
  }

  lemma PlainWireIsFaithful(window: nat)
    requires window > 0
    ensures Faithful(PlainWire(window))
  {
    forall m: Msg | !m.Carry? ensures |PlainEnc(m)| <= MAX_RECORD && PlainDec(PlainEnc(m)) == Some(m) {
      match m
      case Open(id) => assert PlainEnc(m)[1..] == id;
      case Ack(id, accepted) => assert PlainEnc(m)[1..] == id;
      case _ =>
    }
  }

  /** At message level, too, a stall is reachable by either way, with the relay at rest and nothing stuck. */
  lemma StallsAreReachable(id: Uuid, cause: Cause)
    ensures exists t :: Reachable(t) && Resting(t) && Stall(t, id) && Behind(cause, t.conns[id].server)
  {
    var wire := PlainWire(1);
    PlainWireIsFaithful(1);
    var t := Stalled(id, cause);
    FillTo(wire, id, cause, STREAM_SLOTS);
    ReachedIsReachable(wire, t);
    forall step | Internal(step) ensures !Possible(t, step) {
      StalledRests(id, cause, step);
    }
    assert Stall(t, id);
    hide Reachable;
    hide RestingUnder;
  }
}
