/** Progress of the relay: every internal step uses something up, and a relay that has come to rest has
    delivered everything, whatever the bounded channels did on the way. */
module RelayProgress {
  import opened Bytes
  import opened Sums
  import opened Protocol
  import opened Pipeline
  import opened Relay

  /** Steps the relay takes by itself: neither the environment's nor a failure. */
  predicate InternalData(st: DirStep) {
    !st.Arrive? && !st.Hangup? && !st.AbortSource? && !st.BreakSink?
  }

  predicate Internal(step: Step) {
    match step
    case Down(st) => InternalData(st)
    case Up(st) => InternalData(st)
    case Handshake(_, h) => h != Accept && h != TlsFail && h != Timeout && h != Vanish
    case Heart(p) => p != Tick
  }

  /** What may keep the relay from a step of its own: a socket that accepts no bytes for now, at the public
      or the local end; a local connection attempt or TLS handshake that does not finish; a carrier that
      accepts nothing in one direction; an entry in one of the maps of streams that shares its lock with one
      that a router holds, so that it cannot be removed. */
  datatype Obstacle =
    | PublicSocket(id: Uuid) | LocalSocket(id: Uuid) | Dialling(id: Uuid) | LocalTls(id: Uuid) | Carrier(down: bool)
    | ServerEntry(id: Uuid) | AgentEntry(id: Uuid)

  predicate Hindered(stuck: set<Obstacle>, step: Step) {
    match step
    case Down(st) => (st.Write? && LocalSocket(st.id) in stuck) || (Departs(st) && Carrier(true) in stuck)
    case Up(st) => (st.Write? && PublicSocket(st.id) in stuck) || (Departs(st) && Carrier(false) in stuck)
    case Handshake(id, h) =>
      || ((h == DialOk || h == DialFail) && Dialling(id) in stuck) || (h == AgentStart && LocalTls(id) in stuck)
      || ((h == ServerRefused || h == ServerEnd) && ServerEntry(id) in stuck) || (h == AgentEnd && AgentEntry(id) in stuck)
    case Heart(_) => false
  }

  predicate Departs(st: DirStep) {
    st == TakeControl || st == TakeFrame
  }

  // ---------------------------------------------------------------- measure

  function Cost(f: CarrierFrame): nat {
    |f.payload| + 1
  }

  function QueueCost(fs: seq<CarrierFrame>): nat {
    if fs == [] then 0 else Cost(fs[0]) + QueueCost(fs[1..])
  }

  /** A message weighs more the further it still has to go: `stage` hops for each byte of a frame. */
  function FrameCost(ms: seq<Msg>): nat {
    if ms == [] then 0 else (if ms[0].Carry? then Cost(ms[0].frame) else 0) + FrameCost(ms[1..])
  }

  /** A heartbeat still has its answer to come. */
  function ControlWeight(m: Msg): nat {
    if m.Carry? then 0 else if m.Ping? then 3 else 1
  }

  function ControlCost(ms: seq<Msg>): nat {
    if ms == [] then 0 else ControlWeight(ms[0]) + ControlCost(ms[1..])
  }

  function CarrierMeasure(d: Dir): nat {
    5 * FrameCost(d.ctl) + 2 * ControlCost(d.ctl) + 5 * FrameCost(d.chan) + 2 * ControlCost(d.chan)
    + 4 * FrameCost(d.flight) + ControlCost(d.flight) + (if d.hand.Some? then 3 * Cost(d.hand.value) else 0)
  }

  function SourceMeasure(x: Source): nat {
    match x
    case Idle => 7
    case Reading => 7
    case Holding(f) => 6 * Cost(f) + (if f.kind == FRAME_FIN then 0 else 7)
    case _ => 0
  }

  function HalfMeasure(h: Half): nat {
    13 * |h.unread| + SourceMeasure(h.source) + 2 * QueueCost(h.queue)
    + (if h.sink.Writing? then |h.sink.rest| + 1 else 0) + (if h.receiver == Listening then 1 else 0)
  }

  function PhaseMeasure(c: Conn): nat {
    (match c.server
     case SWaiting => 5
     case SUnheard => 5
     case SAccepted => 4
     case SRefused => 4
     case SBridging => 3
     case _ => 0)
    + (match c.agent
       case ANone => 9
       case ADialing => 8
       case ARefusing => 6
       case ARegistered => 6
       case AAccepted => 3
       case ABridging => 2
       case _ => 0)
  }

  function LocalMeasure(l: Local): nat {
    HalfMeasure(l.down) + HalfMeasure(l.up) + PhaseMeasure(l.conn)
  }

  function Measures(s: State): map<Uuid, nat> {
    map id | id in s.conns :: LocalMeasure(LocalOf(s, id))
  }

  ghost function Measure(s: State): nat {
    CarrierMeasure(s.down) + CarrierMeasure(s.up) + Sum(Measures(s)) + if s.pinging then 7 else 0
  }

  lemma {:induction false} QueueCostSnoc(fs: seq<CarrierFrame>, f: CarrierFrame)
    ensures QueueCost(fs + [f]) == QueueCost(fs) + Cost(f)
  {
    if fs == [] {
      assert fs + [f] == [f] && [f][1..] == [];
    } else {
      QueueCostSnoc(fs[1..], f);
      assert (fs + [f])[1..] == fs[1..] + [f];
    }
  }

  lemma {:induction false} CostSnoc(ms: seq<Msg>, m: Msg)
    ensures FrameCost(ms + [m]) == FrameCost(ms) + (if m.Carry? then Cost(m.frame) else 0)
    ensures ControlCost(ms + [m]) == ControlCost(ms) + ControlWeight(m)
  {
    if ms == [] {
      assert ms + [m] == [m] && [m][1..] == [];
    } else {
      CostSnoc(ms[1..], m);
      assert (ms + [m])[1..] == ms[1..] + [m];
    }
  }

  /** The stream a data step belongs to, if any. */
  function Touched(d: Dir, st: DirStep): Option<Uuid>
    requires Enabled(d, st)
  {
    match st
    case TakeControl => None
    case TakeFrame => None
    case Fetch => None
    case Route => if d.hand.value.id in d.halves then Some(d.hand.value.id) else None
    case _ => Some(st.id)
  }

  lemma HalfShrinks(h: Half, id: Uuid, n: nat)
    ensures h.source == Reading && 1 <= n <= |h.unread| ==> HalfMeasure(AfterRead(h, id, n)) < HalfMeasure(h)
    ensures h.source == Reading ==> HalfMeasure(h.(source := Holding(FinFrame(id)))) < HalfMeasure(h)
    ensures h.source.Holding? ==> HalfMeasure(AfterEmit(h)) + 6 * Cost(h.source.frame) == HalfMeasure(h)
    ensures h.sink == Waiting && h.queue != [] ==> HalfMeasure(AfterPop(h)) < HalfMeasure(h)
    ensures h.sink.Writing? && 1 <= n <= |h.sink.rest| ==> HalfMeasure(AfterWrite(h, n)) < HalfMeasure(h)
  {
  }

  lemma RouteWeighs(h: Half, f: CarrierFrame)
    ensures HalfMeasure(AfterRoute(h, f)) <= HalfMeasure(h) + 2 * Cost(f)
  {
    QueueCostSnoc(h.queue, f);
  }

  /** A data step makes its carrier and the one stream it touches lighter together. */
  lemma DataStepShrinks(d: Dir, st: DirStep)
    requires Enabled(d, st) && InternalData(st)
    ensures var d' := Apply(d, st);
      && (Touched(d, st).None? ==> d'.halves == d.halves && CarrierMeasure(d') < CarrierMeasure(d))
      && (Touched(d, st).Some? ==>
            var id := Touched(d, st).value;
            && id in d.halves && d'.halves == d.halves[id := d'.halves[id]]
            && CarrierMeasure(d') + HalfMeasure(d'.halves[id]) < CarrierMeasure(d) + HalfMeasure(d.halves[id]))
  {
    match st
    case TakeControl => CostSnoc(d.flight, d.ctl[0]);
    case TakeFrame => CostSnoc(d.flight, d.chan[0]);
    case Fetch =>
    case Route =>
      if d.hand.value.id in d.halves {
        RouteWeighs(d.halves[d.hand.value.id], d.hand.value);
      }
    case Emit(id) =>
      CostSnoc(d.chan, Carry(d.halves[id].source.frame));
      HalfShrinks(d.halves[id], id, 0);
    case Read(id, n) => HalfShrinks(d.halves[id], id, n);
    case ReadEof(id) => HalfShrinks(d.halves[id], id, 0);
    case Pop(id) => HalfShrinks(d.halves[id], id, 0);
    case Write(id, k) => HalfShrinks(d.halves[id], id, k);
  }

  lemma HandshakeShrinks(l: Local, h: Shake, opens: nat, acks: nat, naks: nat)
    requires LocalAllows(l, h) && h != Accept && h != TlsFail && h != Timeout
    requires h != Vanish && h != TakeOpen && !TakesAnswer(h)
    requires LocalOk(l, opens, acks, naks)
    ensures LocalMeasure(LocalNext(l, h)) + (if h == SendAnswer then 2 else 0) < LocalMeasure(l)
  {
  }

  lemma TakingShrinks(l: Local, h: Shake)
    requires LocalAllows(l, h) && (h == TakeOpen || TakesAnswer(h))
    ensures LocalMeasure(LocalNext(l, h)) <= LocalMeasure(l)
  {
  }

  lemma OthersMeasureTheSame(s: State, s': State, id: Uuid)
    requires id in s.conns && s'.conns.Keys == s.conns.Keys
    requires forall j :: j in s.conns && j != id ==> LocalOf(s', j) == LocalOf(s, j)
    ensures Measures(s') == Measures(s)[id := LocalMeasure(LocalOf(s', id))]
  {
    var m, n := Measures(s'), Measures(s)[id := LocalMeasure(LocalOf(s', id))];
    assert m.Keys == n.Keys;
    forall j | j in m ensures m[j] == n[j] {
      if j != id {
        assert LocalOf(s', j) == LocalOf(s, j);
      }
    }
  }

  lemma PutMeasure(s: State, s': State, id: Uuid)
    requires id in s.conns && s'.conns.Keys == s.conns.Keys
    requires forall j :: j in s.conns && j != id ==> LocalOf(s', j) == LocalOf(s, j)
    ensures Sum(Measures(s')) + LocalMeasure(LocalOf(s, id)) == Sum(Measures(s)) + LocalMeasure(LocalOf(s', id))
  {
    OthersMeasureTheSame(s, s', id);
    SumPut(Measures(s), id, LocalMeasure(LocalOf(s', id)));
  }

  lemma DataDecreases(s: State, step: Step)
    requires KeysOk(s) && Possible(s, step) && Internal(step) && (step.Down? || step.Up?)
    ensures Measure(Next(s, step)) < Measure(s)
  {
    var s', d := Next(s, step), if step.Down? then s.down else s.up;
    DataStepShrinks(d, step.s);
    if Touched(d, step.s).Some? {
      var id := Touched(d, step.s).value;
      PutMeasure(s, s', id);
    } else {
      assert Measures(s') == Measures(s);
    }
  }

  lemma TransferWeighs(s: State, id: Uuid, h: Shake)
    requires TransferAllows(s, id, h) && h != Accept
    ensures var d, u := DownTransfer(s.down, id, h), UpTransfer(s.up, LocalOf(s, id), id, h);
      CarrierMeasure(d) + CarrierMeasure(u) + (if h == TakeOpen || TakesAnswer(h) then 1 else 0)
      == CarrierMeasure(s.down) + CarrierMeasure(s.up) + (if h == SendAnswer then 2 else 0)
  {
    CostSnoc(s.up.chan, Answer(LocalOf(s, id), id));
  }

  lemma PutKeepsCarrier(s: State, id: Uuid, l: Local)
    ensures CarrierMeasure(PutLocal(s, id, l).down) == CarrierMeasure(s.down)
    ensures CarrierMeasure(PutLocal(s, id, l).up) == CarrierMeasure(s.up)
  {
  }

  lemma HandshakeDecreases(s: State, id: Uuid, h: Shake)
    requires Possible(s, Handshake(id, h)) && Internal(Handshake(id, h)) && ConnOk(s, id)
    ensures Measure(Next(s, Handshake(id, h))) < Measure(s)
  {
    var s', l := Next(s, Handshake(id, h)), LocalOf(s, id);
    var t := s.(down := DownTransfer(s.down, id, h), up := UpTransfer(s.up, l, id, h));
    TransferWeighs(s, id, h);
    PutKeepsCarrier(t, id, LocalNext(l, h));
    forall j ensures LocalOf(s', j) == if j == id then LocalNext(l, h) else LocalOf(s, j) {
      TransferKeepsLocals(s, id, h, j);
      PutIsLocal(t, id, LocalNext(l, h), j);
    }
    assert s'.conns.Keys == s.conns.Keys;
    PutMeasure(s, s', id);
    if h == TakeOpen || TakesAnswer(h) {
      TakingShrinks(l, h);
    } else {
      HandshakeShrinks(l, h, InTransit(s.down, Open(id)), InTransit(s.up, Ack(id, true)), InTransit(s.up, Ack(id, false)));
    }
  }

  lemma PulseDecreases(s: State, p: Pulse)
    requires PulseAllows(s, p) && p != Tick
    ensures Measure(Beaten(s, p)) < Measure(s)
  {
    var t := Beaten(s, p);
    assert Measures(t) == Measures(s) by {
      forall id | id in s.conns ensures LocalOf(t, id) == LocalOf(s, id) {
        PulseKeepsLocals(s, p, id);
      }
    }
    PulseWeighs(s, p);
    hide CarrierMeasure;
  }

  lemma PulseWeighs(s: State, p: Pulse)
    requires PulseAllows(s, p) && p != Tick
    ensures CarrierMeasure(Beaten(s, p).down) + CarrierMeasure(Beaten(s, p).up) + (if Beaten(s, p).pinging then 7 else 0)
          < CarrierMeasure(s.down) + CarrierMeasure(s.up) + (if s.pinging then 7 else 0)
  {
    CostSnoc(s.up.chan, Ping);
    CostSnoc(s.down.ctl, Pong);
  }

  /** Every internal step strictly decreases the measure. */
  lemma InternalStepsDecrease(s: State, step: Step)
    requires RelayOk(s) && Possible(s, step) && Internal(step)
    ensures Measure(Next(s, step)) < Measure(s)
  {
    if step.Handshake? {
      assert ConnOk(s, step.id);
      HandshakeDecreases(s, step.id, step.h);
    } else if step.Heart? {
      PulseDecreases(s, step.p);
    } else {
      DataDecreases(s, step);
    }
  }

  /** So without new input or failures the relay takes at most `Measure(s)` more steps. */
  lemma {:induction false} RunsAreBounded(s: State, steps: seq<Step>, t: State)
    requires RelayOk(s) && Run(s, steps, t) && (forall st :: st in steps ==> Internal(st))
    ensures |steps| + Measure(t) <= Measure(s)
    decreases |steps|
  {
    if steps != [] {
      InternalStepsDecrease(s, steps[0]);
      StepKeepsRelayOk(s, steps[0]);
      RunsAreBounded(Next(s, steps[0]), steps[1..], t);
    }
  }
}
