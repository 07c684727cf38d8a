/** The relay over real carrier bytes. Instead of a queue of messages, each direction has the bytes the
    writer task still has to write, the bytes on the network and the bytes the reader has taken of the
    record it is reading. This system refines the message-level one, so its guarantees carry over. */
module RelayBytes {
  import opened Bytes
  import opened Protocol
  import opened Records
  import opened Pipeline
  import opened Relay
  import opened RelayProgress
  import opened RelayRest
  import opened RelayStall

  /** The JSON codec of control messages, of which only this is needed: what is decoded is what was
      encoded, and a control message fits a record. And how many bytes the network of one direction holds
      before the writer has to wait for the reader. */
  datatype Wire = Wire(enc: Msg -> seq<byte>, dec: seq<byte> -> Option<Msg>, window: nat)

  ghost predicate Faithful(c: Wire) {
    c.window > 0 && forall m: Msg :: !m.Carry? ==> |c.enc(m)| <= MAX_RECORD && c.dec(c.enc(m)) == Some(m)
  }

  function Pack(c: Wire, m: Msg): Record {
    if m.Carry? then Record(BINARY, Encoded(m.frame)) else Record(CONTROL, c.enc(m))
  }

  function Unpack(c: Wire, r: Record): Option<Msg> {
    if r.kind == BINARY then
      match DecodeCarrierFrame(r.payload)
      case Some(f) => Some(Carry(f))
      case None => None
    else c.dec(r.payload)
  }

  function PackAll(c: Wire, ms: seq<Msg>): seq<Record> {
    if ms == [] then [] else [Pack(c, ms[0])] + PackAll(c, ms[1..])
  }

  /** The writer's remaining bytes of the current record, the network, the reader's current record. */
  datatype Link = Link(out: seq<byte>, net: seq<byte>, got: seq<byte>)

  /** `s` is the relay without what is on its carriers. */
  datatype CState = CState(s: State, down: Link, up: Link)

  const CINITIAL := CState(INITIAL, Link([], [], []), Link([], [], []))

  datatype CStep =
    | Other(step: Step)                  // any step that does not touch a carrier's bytes
    | SendControl(down: bool)            // the writer starts the record of the next control message
    | SendFrame(down: bool)              // ... or of the next message of the outbound channel
    | Flush(down: bool, k: nat)          // the writer gets `k` more bytes onto the network, if it has room
    | Pull(down: bool)                   // the reader takes one more byte
    | Receive(down: bool, heed: bool)    // it has a whole record and acts on it, or ignores a late answer
    | DropRead                           // the agent's heartbeat drops the read that is under way

  function LinkOf(c: CState, down: bool): Link {
    if down then c.down else c.up
  }

  function WithLink(c: CState, down: bool, l: Link): CState {
    if down then c.(down := l) else c.(up := l)
  }

  function WithDir(s: State, down: bool, d: Dir): State {
    if down then s.(down := d) else s.(up := d)
  }

  /** The message-level step that takes the first message off a carrier. */
  function Taking(down: bool, m: Msg, heed: bool): Step {
    match m
    case Carry(_) => if down then Down(Fetch) else Up(Fetch)
    case Open(id) => Handshake(id, TakeOpen)
    case Ack(id, accepted) => Handshake(id, if heed then TakeAnswer(accepted) else IgnoreAnswer(accepted))
    case Ping => Heart(TakePing)
    case Pong => Heart(TakePong)
  }

  predicate TouchesCarrier(step: Step) {
    match step
    case Down(st) => st == TakeControl || st == TakeFrame || st == Fetch
    case Up(st) => st == TakeControl || st == TakeFrame || st == Fetch
    case Handshake(_, h) => h == TakeOpen || TakesAnswer(h)
    case Heart(p) => p == TakePing || p == TakePong
  }

  /** The relay as it is just before the reader acts on message `m`. */
  function Facing(s: State, down: bool, m: Msg): State {
    WithDir(s, down, DirOf(s, down).(flight := [m]))
  }

  /** The reader at the end of a direction is at its carrier. */
  predicate ReaderFree(s: State, down: bool) {
    DirOf(s, down).hand == None && !(down && s.pinging)
  }

  predicate CPossible(wire: Wire, c: CState, cs: CStep) {
    match cs
    case Other(step) => !TouchesCarrier(step) && Possible(c.s, step)
    case SendControl(down) => LinkOf(c, down).out == [] && DirOf(c.s, down).ctl != []
    case SendFrame(down) => LinkOf(c, down).out == [] && DirOf(c.s, down).chan != []
    case Flush(down, k) => 1 <= k <= |LinkOf(c, down).out| && |LinkOf(c, down).net| + k <= wire.window
    case Pull(down) => ReaderFree(c.s, down) && LinkOf(c, down).net != [] && ReadRecord(LinkOf(c, down).got) == NeedMore
    case Receive(down, heed) =>
      && ReaderFree(c.s, down)
      && ReadRecord(LinkOf(c, down).got).Got?
      && Unpack(wire, ReadRecord(LinkOf(c, down).got).record).Some?
      && var m := Unpack(wire, ReadRecord(LinkOf(c, down).got).record).value;
      Possible(Facing(c.s, down, m), Taking(down, m, heed))
    case DropRead => ReaderFree(c.s, true)
  }

  function CNext(wire: Wire, c: CState, cs: CStep): CState
    requires CPossible(wire, c, cs)
  {
    match cs
    case Other(step) => c.(s := Next(c.s, step))
    case SendControl(down) =>
      var d := DirOf(c.s, down);
      WithLink(c.(s := WithDir(c.s, down, d.(ctl := d.ctl[1..]))), down,
               LinkOf(c, down).(out := WriteRecord(Pack(wire, d.ctl[0]))))
    case SendFrame(down) =>
      var d := DirOf(c.s, down);
      WithLink(c.(s := WithDir(c.s, down, d.(chan := d.chan[1..]))), down,
               LinkOf(c, down).(out := WriteRecord(Pack(wire, d.chan[0]))))
    case Flush(down, k) =>
      var l := LinkOf(c, down);
      WithLink(c, down, l.(out := l.out[k..], net := l.net + l.out[..k]))
    case Pull(down) =>
      var l := LinkOf(c, down);
      WithLink(c, down, l.(net := l.net[1..], got := l.got + [l.net[0]]))
    case Receive(down, heed) =>
      var l := LinkOf(c, down);
      var Got(r, rest) := ReadRecord(l.got);
      var m := Unpack(wire, r).value;
      WithLink(c.(s := Next(Facing(c.s, down, m), Taking(down, m, heed))), down, l.(got := rest))
    case DropRead => c.(down := c.down.(got := []))
  }

  // ---------------------------------------------------------------- one link

  predicate Sendable(m: Msg) {
    m.Carry? ==> |m.frame.payload| <= READ_BUFFER
  }

  /** The link holds exactly the records of `ms`, and the reader is inside the first one. */
  ghost predicate Holds(wire: Wire, l: Link, ms: seq<Msg>) {
    && l.got + l.net + l.out == Serialize(PackAll(wire, ms))
    && (forall m :: m in ms ==> Sendable(m))
    && (if ms == [] then l.got == [] else |l.got| <= |WriteRecord(Pack(wire, ms[0]))|)
  }

  lemma PackUnpack(wire: Wire, m: Msg)
    requires Faithful(wire) && Sendable(m)
    ensures Unpack(wire, Pack(wire, m)) == Some(m)
    ensures |Pack(wire, m).payload| <= MAX_RECORD
  {
    if m.Carry? {
      DecodeInvertsEncode(Encoded(m.frame), m.frame);
    }
  }

  lemma {:induction false} PackAllOne(wire: Wire, ms: seq<Msg>, m: Msg)
    ensures PackAll(wire, ms + [m]) == PackAll(wire, ms) + [Pack(wire, m)]
  {
    if ms == [] {
      assert ms + [m] == [m] && [m][1..] == [];
    } else {
      PackAllOne(wire, ms[1..], m);
      assert (ms + [m])[1..] == ms[1..] + [m] && (ms + [m])[0] == ms[0];
    }
  }

  lemma {:induction false} PackAllSnoc(wire: Wire, ms: seq<Msg>, m: Msg)
    ensures Serialize(PackAll(wire, ms + [m])) == Serialize(PackAll(wire, ms)) + WriteRecord(Pack(wire, m))
  {
    PackAllOne(wire, ms, m);
    SerializeSnoc(PackAll(wire, ms), Pack(wire, m));
  }

  lemma {:induction false} PackHead(wire: Wire, ms: seq<Msg>)
    requires ms != []
    ensures Serialize(PackAll(wire, ms)) == WriteRecord(Pack(wire, ms[0])) + Serialize(PackAll(wire, ms[1..]))
  {
    var rs := PackAll(wire, ms);
    assert rs[0] == Pack(wire, ms[0]) && rs[1..] == PackAll(wire, ms[1..]);
  }

  /** What the reader sees of the first record: all of it, or that it needs more. */
  lemma ReaderSees(wire: Wire, l: Link, ms: seq<Msg>)
    requires Faithful(wire) && Holds(wire, l, ms) && ms != []
    ensures var w := WriteRecord(Pack(wire, ms[0]));
      && l.got == w[..|l.got|]
      && ReadRecord(l.got) == (if |l.got| == |w| then Got(Pack(wire, ms[0]), []) else NeedMore)
  {
    var w := WriteRecord(Pack(wire, ms[0]));
    PackHead(wire, ms);
    PackUnpack(wire, ms[0]);
    assert l.got == (l.got + l.net + l.out)[..|l.got|] == w[..|l.got|];
    if |l.got| == |w| {
      RecordRoundTrip(Pack(wire, ms[0]), []);
      assert w + [] == w && l.got == w;
    } else {
      PartialRecord(Pack(wire, ms[0]), |l.got|);
    }
  }

  lemma PutHolds(wire: Wire, l: Link, ms: seq<Msg>, m: Msg)
    requires Holds(wire, l, ms) && l.out == [] && Sendable(m)
    ensures Holds(wire, l.(out := WriteRecord(Pack(wire, m))), ms + [m])
  {
    var w := WriteRecord(Pack(wire, m));
    PackAllSnoc(wire, ms, m);
    assert l.got + l.net + w == (l.got + l.net + l.out) + w;
  }

  lemma FlushHolds(wire: Wire, l: Link, ms: seq<Msg>, k: nat)
    requires Holds(wire, l, ms) && k <= |l.out|
    ensures Holds(wire, l.(out := l.out[k..], net := l.net + l.out[..k]), ms)
  {
    assert l.got + (l.net + l.out[..k]) + l.out[k..] == l.got + l.net + l.out;
  }

  lemma PullHolds(wire: Wire, l: Link, ms: seq<Msg>)
    requires Faithful(wire) && Holds(wire, l, ms) && l.net != [] && ReadRecord(l.got) == NeedMore
    ensures Holds(wire, l.(net := l.net[1..], got := l.got + [l.net[0]]), ms)
  {
    assert (l.got + [l.net[0]]) + l.net[1..] + l.out == l.got + l.net + l.out;
    if ms != [] {
      ReaderSees(wire, l, ms);
    }
  }

  lemma TakeHolds(wire: Wire, l: Link, ms: seq<Msg>)
    requires Faithful(wire) && Holds(wire, l, ms) && ReadRecord(l.got).Got?
    ensures ms != [] && ReadRecord(l.got) == Got(Pack(wire, ms[0]), []) && Unpack(wire, Pack(wire, ms[0])) == Some(ms[0])
    ensures Holds(wire, l.(got := []), ms[1..])
  {
    if ms != [] {
      ReaderSees(wire, l, ms);
      PackUnpack(wire, ms[0]);
      PackHead(wire, ms);
      var w := WriteRecord(Pack(wire, ms[0]));
      assert l.got == w;
      assert (w + l.net + l.out)[|w|..] == [] + l.net + l.out;
      assert (w + Serialize(PackAll(wire, ms[1..])))[|w|..] == Serialize(PackAll(wire, ms[1..]));
    }
  }

  // ---------------------------------------------------------------- refinement

  function Bare(a: State): State {
    a.(down := a.down.(flight := []), up := a.up.(flight := []))
  }

  /** `a` is the message-level relay that `c` stands for. */
  ghost predicate Stands(wire: Wire, c: CState, a: State) {
    && c.s == Bare(a)
    && Holds(wire, c.down, a.down.flight) && Holds(wire, c.up, a.up.flight)
    && ChannelsSendable(a)
  }

  ghost predicate ChannelsSendable(s: State) {
    && (forall m :: m in s.down.ctl ==> Sendable(m)) && (forall m :: m in s.down.chan ==> Sendable(m))
    && (forall m :: m in s.up.ctl ==> Sendable(m)) && (forall m :: m in s.up.chan ==> Sendable(m))
  }

  lemma DataCommutes(d: Dir, st: DirStep)
    requires st != TakeControl && st != TakeFrame && st != Fetch && Enabled(d.(flight := []), st)
    ensures Enabled(d, st)
    ensures Apply(d, st).flight == d.flight
    ensures Apply(d.(flight := []), st) == Apply(d, st).(flight := [])
  {
  }

  lemma DataSendable(d: Dir, st: DirStep)
    requires DirOk(d) && st != TakeControl && st != TakeFrame && st != Fetch && Enabled(d, st)
    requires (forall m :: m in d.ctl ==> Sendable(m)) && (forall m :: m in d.chan ==> Sendable(m))
    ensures var d' := Apply(d, st); (forall m :: m in d'.ctl ==> Sendable(m)) && (forall m :: m in d'.chan ==> Sendable(m))
  {
    if st.Emit? {
      var h := d.halves[st.id];
      assert HalfOk(h, OnWay(d, st.id), st.id);
    }
  }

  lemma HandshakeCommutes(a: State, id: Uuid, h: Shake)
    requires h != TakeOpen && !TakesAnswer(h) && Possible(Bare(a), Handshake(id, h))
    ensures Possible(a, Handshake(id, h))
    ensures var b := Next(a, Handshake(id, h));
      && b.down.flight == a.down.flight && b.up.flight == a.up.flight
      && Next(Bare(a), Handshake(id, h)) == Bare(b)
      && (ChannelsSendable(a) ==> ChannelsSendable(b))
  {
    assert LocalOf(Bare(a), id) == LocalOf(a, id);
  }

  lemma SimulateOther(wire: Wire, c: CState, a: State, step: Step)
    requires RelayOk(a) && Stands(wire, c, a) && CPossible(wire, c, Other(step))
    ensures Possible(a, step) && Stands(wire, CNext(wire, c, Other(step)), Next(a, step))
  {
    match step
    case Down(st) => DataCommutes(a.down, st); DataSendable(a.down, st);
    case Up(st) => DataCommutes(a.up, st); DataSendable(a.up, st);
    case Handshake(id, h) => HandshakeCommutes(a, id, h);
    case Heart(p) => PulseCommutes(a, p);
  }

  lemma PulseCommutes(a: State, p: Pulse)
    requires PulseAllows(Bare(a), p) && p != TakePing && p != TakePong
    ensures PulseAllows(a, p)
    ensures var b := Beaten(a, p);
      && b.down.flight == a.down.flight && b.up.flight == a.up.flight && Beaten(Bare(a), p) == Bare(b)
      && (ChannelsSendable(a) ==> ChannelsSendable(b))
  {
  }

  /** The message-level step that writing the next record stands for. */
  function SendStep(down: bool, control: bool): Step {
    var st := if control then TakeControl else TakeFrame;
    if down then Down(st) else Up(st)
  }

  lemma SimulateSend(wire: Wire, c: CState, a: State, down: bool, control: bool)
    requires Stands(wire, c, a)
    requires var cs := if control then SendControl(down) else SendFrame(down); CPossible(wire, c, cs)
    ensures var cs := if control then SendControl(down) else SendFrame(down);
      Possible(a, SendStep(down, control)) && Stands(wire, CNext(wire, c, cs), Next(a, SendStep(down, control)))
  {
    var d := DirOf(a, down);
    PutHolds(wire, LinkOf(c, down), d.flight, if control then d.ctl[0] else d.chan[0]);
  }

  lemma TakingCommutes(a: State, down: bool, m: Msg, heed: bool)
    requires DirOf(a, down).flight != [] && DirOf(a, down).flight[0] == m
    requires Possible(Facing(Bare(a), down, m), Taking(down, m, heed))
    ensures Possible(a, Taking(down, m, heed))
    ensures var b := Next(a, Taking(down, m, heed));
      && Next(Facing(Bare(a), down, m), Taking(down, m, heed)) == Bare(b)
      && DirOf(b, down).flight == DirOf(a, down).flight[1..] && DirOf(b, !down).flight == DirOf(a, !down).flight
      && (ChannelsSendable(a) ==> ChannelsSendable(b))
  {
    if m.Open? || m.Ack? {
      assert LocalOf(Facing(Bare(a), down, m), m.id) == LocalOf(a, m.id);
    }
  }

  lemma SimulateReceive(wire: Wire, c: CState, a: State, down: bool, heed: bool)
    requires Faithful(wire) && Stands(wire, c, a) && CPossible(wire, c, Receive(down, heed))
    ensures DirOf(a, down).flight != []
    ensures var step := Taking(down, DirOf(a, down).flight[0], heed);
      Possible(a, step) && Stands(wire, CNext(wire, c, Receive(down, heed)), Next(a, step))
  {
    TakeHolds(wire, LinkOf(c, down), DirOf(a, down).flight);
    TakingCommutes(a, down, DirOf(a, down).flight[0], heed);
  }

  /** A cancelled read keeps the link in step exactly when it had not taken a byte of its record. */
  lemma DropReadKeepsIff(wire: Wire, c: CState, a: State)
    requires Faithful(wire) && Stands(wire, c, a) && CPossible(wire, c, DropRead)
    ensures Stands(wire, CNext(wire, c, DropRead), a) <==> c.down.got == []
  {
    if Holds(wire, c.down.(got := []), a.down.flight) {
      assert |c.down.got + c.down.net + c.down.out| == |[] + c.down.net + c.down.out|;
    }
  }

  predicate Stutters(cs: CStep) {
    cs.Flush? || cs.Pull? || cs.DropRead?
  }

  /** A step that loses no byte of a record: any but a cancelled read that had begun one. */
  predicate Lossless(c: CState, cs: CStep) {
    cs.DropRead? ==> c.down.got == []
  }

  /** What a byte-level step is at message level; moving or not moving bytes is nothing. */
  ghost function Meaning(a: State, cs: CStep): seq<Step> {
    match cs
    case Other(step) => [step]
    case SendControl(down) => [SendStep(down, true)]
    case SendFrame(down) => [SendStep(down, false)]
    case Flush(_, _) => []
    case Pull(_) => []
    case Receive(down, heed) => if DirOf(a, down).flight == [] then [] else [Taking(down, DirOf(a, down).flight[0], heed)]
    case DropRead => []
  }

  lemma SimulateStutter(wire: Wire, c: CState, a: State, cs: CStep)
    requires Faithful(wire) && Stands(wire, c, a) && CPossible(wire, c, cs) && Stutters(cs) && Lossless(c, cs)
    ensures Stands(wire, CNext(wire, c, cs), a)
  {
    match cs
    case Flush(down, k) => FlushHolds(wire, LinkOf(c, down), DirOf(a, down).flight, k);
    case Pull(down) => PullHolds(wire, LinkOf(c, down), DirOf(a, down).flight);
    case DropRead => DropReadKeepsIff(wire, c, a);
  }

  /** Refinement: every byte-level step that loses no byte is a message-level step or none at all. */
  lemma StepRefines(wire: Wire, c: CState, a: State, cs: CStep) returns (b: State)
    requires Faithful(wire) && RelayOk(a) && Stands(wire, c, a) && CPossible(wire, c, cs) && Lossless(c, cs)
    ensures Stands(wire, CNext(wire, c, cs), b) && Run(a, Meaning(a, cs), b)
  {
    if Stutters(cs) {
      SimulateStutter(wire, c, a, cs);
      b := a;
    } else {
      var step := StepMeans(wire, c, a, cs);
      OneStep(a, step);
      b := Next(a, step);
    }
  }

  lemma StepMeans(wire: Wire, c: CState, a: State, cs: CStep) returns (step: Step)
    requires Faithful(wire) && RelayOk(a) && Stands(wire, c, a) && CPossible(wire, c, cs) && !Stutters(cs)
    ensures Meaning(a, cs) == [step] && Possible(a, step) && Stands(wire, CNext(wire, c, cs), Next(a, step))
  {
    match cs {
      case Other(st) => SimulateOther(wire, c, a, st); step := st;
      case SendControl(down) => SimulateSend(wire, c, a, down, true); step := SendStep(down, true);
      case SendFrame(down) => SimulateSend(wire, c, a, down, false); step := SendStep(down, false);
      case Receive(down, heed) =>
        SimulateReceive(wire, c, a, down, heed);
        step := Taking(down, DirOf(a, down).flight[0], heed);
    }
  }

  // ---------------------------------------------------------------- runs

  ghost predicate CRun(wire: Wire, c: CState, steps: seq<CStep>, d: CState)
    decreases |steps|
  {
    if steps == [] then c == d
    else CPossible(wire, c, steps[0]) && CRun(wire, CNext(wire, c, steps[0]), steps[1..], d)
  }

  /** No heartbeat of the run dropped a read that had begun a record. */
  ghost predicate CutsNoRecord(wire: Wire, c: CState, steps: seq<CStep>)
    decreases |steps|
  {
    steps != [] && CPossible(wire, c, steps[0]) ==>
      Lossless(c, steps[0]) && CutsNoRecord(wire, CNext(wire, c, steps[0]), steps[1..])
  }

  ghost function CArrived(steps: seq<CStep>, id: Uuid, down: bool): seq<byte> {
    if steps == [] then []
    else (if steps[0].Other? then ArrivedIn(steps[0].step, id, down) else []) + CArrived(steps[1..], id, down)
  }

  predicate CFailure(cs: CStep) {
    (cs.Other? && Failure(cs.step)) || (cs.Receive? && !cs.heed)
  }

  lemma {:induction false} MeaningBringsTheSame(a: State, cs: CStep, id: Uuid, down: bool)
    ensures Arrived(Meaning(a, cs), id, down) == if cs.Other? then ArrivedIn(cs.step, id, down) else []
  {
    if Meaning(a, cs) != [] {
      assert Meaning(a, cs)[1..] == [];
    }
  }

  /** Every byte-level run that cuts no record is a message-level run with the same arrivals and no new
      failures. */
  lemma {:induction false} RunRefines(wire: Wire, c: CState, a: State, csteps: seq<CStep>, d: CState)
    returns (steps: seq<Step>, b: State)
    requires Faithful(wire) && RelayOk(a) && Stands(wire, c, a) && CRun(wire, c, csteps, d) && CutsNoRecord(wire, c, csteps)
    ensures Run(a, steps, b) && Stands(wire, d, b)
    ensures forall id, down :: Arrived(steps, id, down) == CArrived(csteps, id, down)
    ensures (forall cs :: cs in csteps ==> !CFailure(cs)) ==> (forall st :: st in steps ==> !Failure(st))
    ensures forall id :: Handshake(id, DialFail) in steps <==> Other(Handshake(id, DialFail)) in csteps
    decreases |csteps|
  {
    hide CPossible;
    hide CNext;
    hide Possible;
    hide Next;
    hide Faithful;
    hide Stands;
    hide RelayOk;
    hide Lossless;
    if csteps == [] {
      steps, b := [], a;
    } else {
      var m := StepRefines(wire, c, a, csteps[0]);
      RunKeepsRelayOk(a, Meaning(a, csteps[0]), m);
      var more;
      more, b := RunRefines(wire, CNext(wire, c, csteps[0]), m, csteps[1..], d);
      steps := Meaning(a, csteps[0]) + more;
      RunsJoin(a, Meaning(a, csteps[0]), m, more, b);
      forall id, down ensures Arrived(steps, id, down) == CArrived(csteps, id, down) {
        MeaningBringsTheSame(a, csteps[0], id, down);
        ArrivedJoins(Meaning(a, csteps[0]), more, id, down);
      }
      MeaningFailsNot(a, csteps[0]);
      assert csteps == [csteps[0]] + csteps[1..];
    }
  }

  lemma MeaningFailsNot(a: State, cs: CStep)
    ensures !CFailure(cs) ==> forall st :: st in Meaning(a, cs) ==> !Failure(st)
    ensures forall id :: Handshake(id, DialFail) in Meaning(a, cs) <==> cs == Other(Handshake(id, DialFail))
  {
  }

  lemma StandsAtTheStart(wire: Wire)
    ensures Stands(wire, CINITIAL, INITIAL)
  {
    assert PackAll(wire, []) == [];
    assert Serialize([]) == [];
  }

  lemma RefinedFromTheStart(wire: Wire, csteps: seq<CStep>, d: CState) returns (steps: seq<Step>, b: State)
    requires Faithful(wire) && CRun(wire, CINITIAL, csteps, d) && CutsNoRecord(wire, CINITIAL, csteps)
    ensures Run(INITIAL, steps, b) && Stands(wire, d, b)
    ensures forall id, down :: Arrived(steps, id, down) == CArrived(csteps, id, down)
    ensures (forall cs :: cs in csteps ==> !CFailure(cs)) ==> (forall st :: st in steps ==> !Failure(st))
    ensures forall id :: Handshake(id, DialFail) in steps <==> Other(Handshake(id, DialFail)) in csteps
  {
    StandsAtTheStart(wire);
    InitialIsOk();
    steps, b := RunRefines(wire, CINITIAL, INITIAL, csteps, d);
  }

  /** Order, integrity and isolation over real carrier bytes, however the writers' bytes are split on the
      network and whatever chunks the readers get, as long as no heartbeat cuts a record. */
  lemma {:induction false} ByteStreamIntegrity(wire: Wire, csteps: seq<CStep>, d: CState, id: Uuid, down: bool)
    requires Faithful(wire) && CRun(wire, CINITIAL, csteps, d) && CutsNoRecord(wire, CINITIAL, csteps)
    requires id in d.s.conns
    ensures HalfOf(d.s, id, down).written <= CArrived(csteps, id, down)
    ensures HalfOf(d.s, id, down).sink == Shut ==> HalfOf(d.s, id, down).written == CArrived(csteps, id, down)
  {
    var steps, b := RefinedFromTheStart(wire, csteps, d);
    StreamIntegrity(steps, b, id, down);
    FinIsExact(steps, b, id, down);
    assert HalfOf(d.s, id, down) == HalfOf(b, id, down);
  }

  // ---------------------------------------------------------------- progress over bytes

  predicate CInternal(cs: CStep) {
    !cs.DropRead? && (cs.Other? ==> Internal(cs.step))
  }

  /** No step of the relay's or its carriers' own is possible, except those that obstacles hold up. */
  ghost predicate CRestingUnder(wire: Wire, c: CState, stuck: set<Obstacle>) {
    forall cs :: CInternal(cs) && !(cs.Other? && Hindered(stuck, cs.step)) ==> !CPossible(wire, c, cs)
  }

  ghost predicate CResting(wire: Wire, c: CState) {
    CRestingUnder(wire, c, {})
  }

  /** The carriers that hold up their writer. */
  function Waiting(c: CState): set<Obstacle> {
    (if c.down.out != [] then {Carrier(true)} else {}) + (if c.up.out != [] then {Carrier(false)} else {})
  }

  function LinkMeasure(c: CState): nat {
    2 * |c.down.out| + |c.down.net| + 2 * |c.up.out| + |c.up.net|
  }

  lemma StutterShrinks(wire: Wire, c: CState, cs: CStep)
    requires CPossible(wire, c, cs) && (cs.Flush? || cs.Pull?)
    ensures CNext(wire, c, cs).s == c.s && LinkMeasure(CNext(wire, c, cs)) < LinkMeasure(c)
  {
  }

  /** One record on a link takes at most this many byte steps to write and read. */
  const RECORD_STEPS := 2 * (HEADER + MAX_RECORD)

  /** Moves left at byte level: each message-level move can put one record's bytes on a link. */
  ghost function CMeasure(c: CState, a: State): nat {
    Weighted(Measure(a), LinkMeasure(c))
  }

  function Weighted(messages: nat, bytes: nat): nat {
    (RECORD_STEPS + 1) * messages + bytes
  }

  lemma WeightedFalls(m: nat, m': nat, b: nat, b': nat)
    requires (m' < m && b' <= b + RECORD_STEPS) || (m' == m && b' < b)
    ensures Weighted(m', b') < Weighted(m, b)
  {
  }

  lemma SendingWeighs(wire: Wire, c: CState, a: State, cs: CStep)
    requires Faithful(wire) && Stands(wire, c, a) && CPossible(wire, c, cs) && !Stutters(cs)
    ensures LinkMeasure(CNext(wire, c, cs)) <= LinkMeasure(c) + RECORD_STEPS
  {
    match cs
    case SendControl(down) => PackUnpack(wire, DirOf(a, down).ctl[0]);
    case SendFrame(down) => PackUnpack(wire, DirOf(a, down).chan[0]);
    case _ =>
  }

  /** Every internal byte-level step lowers the measure. */
  lemma CInternalStepsDecrease(wire: Wire, c: CState, a: State, cs: CStep) returns (b: State)
    requires Faithful(wire) && RelayOk(a) && Stands(wire, c, a) && CPossible(wire, c, cs) && CInternal(cs)
    ensures RelayOk(b) && Stands(wire, CNext(wire, c, cs), b)
    ensures CMeasure(CNext(wire, c, cs), b) < CMeasure(c, a)
  {
    hide RelayOk;
    hide Measure;
    hide LinkMeasure;
    hide Weighted;
    hide CPossible;
    hide CNext;
    hide Stands;
    if Stutters(cs) {
      SimulateStutter(wire, c, a, cs);
      StutterShrinks(wire, c, cs);
      b := a;
    } else {
      var step := StepMeans(wire, c, a, cs);
      MeansInternal(a, cs, step);
      InternalStepsDecrease(a, step);
      StepKeepsRelayOk(a, step);
      SendingWeighs(wire, c, a, cs);
      b := Next(a, step);
    }
    WeightedFalls(Measure(a), Measure(b), LinkMeasure(c), LinkMeasure(CNext(wire, c, cs)));
  }

  /** So without new input or failures, the relay and its carriers take at most `CMeasure` more steps. */
  lemma {:induction false} CRunsAreBounded(wire: Wire, c: CState, a: State, csteps: seq<CStep>, d: CState) returns (b: State)
    requires Faithful(wire) && RelayOk(a) && Stands(wire, c, a) && CRun(wire, c, csteps, d)
    requires forall cs :: cs in csteps ==> CInternal(cs)
    ensures RelayOk(b) && Stands(wire, d, b) && |csteps| + CMeasure(d, b) <= CMeasure(c, a)
    decreases |csteps|
  {
    b := a;
    if csteps != [] {
      var m := CInternalStepsDecrease(wire, c, a, csteps[0]);
      b := CRunsAreBounded(wire, CNext(wire, c, csteps[0]), m, csteps[1..], d);
    }
  }

  lemma MeansInternal(a: State, cs: CStep, step: Step)
    requires CInternal(cs) && Meaning(a, cs) == [step]
    ensures Internal(step)
  {
    assert step == Meaning(a, cs)[0];
  }

  lemma BareCommutes(a: State, step: Step)
    requires !TouchesCarrier(step) && Possible(a, step)
    ensures Possible(Bare(a), step)
  {
    if step.Handshake? {
      assert LocalOf(Bare(a), step.id) == LocalOf(a, step.id);
    }
  }

  /** The message at the head of a carrier suits its direction. */
  predicate Suits(m: Msg, down: bool) {
    if down then !m.Ack? && !m.Ping? else !m.Open? && !m.Pong?
  }

  lemma FacingIsPossible(a: State, down: bool, heed: bool)
    requires DirOf(a, down).flight != [] && Possible(a, Taking(down, DirOf(a, down).flight[0], heed))
    requires ReaderFree(a, down) && Suits(DirOf(a, down).flight[0], down)
    ensures var m := DirOf(a, down).flight[0]; Possible(Facing(Bare(a), down, m), Taking(down, m, heed))
  {
    var m := DirOf(a, down).flight[0];
    if m.Open? || m.Ack? {
      assert LocalOf(Facing(Bare(a), down, m), m.id) == LocalOf(a, m.id);
    }
  }

  /** Whatever is on a carrier whose router is free can be moved on. */
  lemma LinkCanMove(wire: Wire, c: CState, a: State, down: bool, heed: bool) returns (cs: CStep)
    requires Faithful(wire) && Stands(wire, c, a)
    requires ReaderFree(a, down) && DirOf(a, down).flight != []
    requires Possible(a, Taking(down, DirOf(a, down).flight[0], heed)) && Suits(DirOf(a, down).flight[0], down)
    ensures CInternal(cs) && !cs.Other? && CPossible(wire, c, cs)
  {
    var l, ms := LinkOf(c, down), DirOf(a, down).flight;
    ReaderSees(wire, l, ms);
    if ReadRecord(l.got).Got? {
      PackUnpack(wire, ms[0]);
      cs := CStep.Receive(down, heed);
      FacingIsPossible(a, down, heed);
    } else {
      PackHead(wire, ms);
      cs := if l.net != [] then CStep.Pull(down) else CStep.Flush(down, 1);
    }
  }

  // ---------------------------------------------------------------- rest over bytes

  lemma CBlocked(wire: Wire, c: CState, stuck: set<Obstacle>, cs: CStep)
    requires CRestingUnder(wire, c, stuck) && CInternal(cs) && !(cs.Other? && Hindered(stuck, cs.step))
    ensures !CPossible(wire, c, cs)
  {
  }

  lemma RestingOthers(wire: Wire, c: CState, a: State, stuck: set<Obstacle>, step: Step)
    requires CRestingUnder(wire, c, stuck) && c.s == Bare(a) && Internal(step) && !Hindered(stuck, step) && !TouchesCarrier(step)
    ensures !Possible(a, step)
  {
    if Possible(a, step) {
      BareCommutes(a, step);
      CBlocked(wire, c, stuck, CStep.Other(step));
    }
  }

  lemma RestingWriter(wire: Wire, c: CState, a: State, stuck: set<Obstacle>, down: bool)
    requires CRestingUnder(wire, c, stuck) && c.s == Bare(a)
    ensures LinkOf(c, down).out == [] ==> DirOf(a, down).ctl == [] && DirOf(a, down).chan == []
    ensures LinkOf(c, down).out != [] ==> |LinkOf(c, down).net| >= wire.window
  {
    CBlocked(wire, c, stuck, CStep.Flush(down, 1));
    CBlocked(wire, c, stuck, CStep.SendControl(down));
    CBlocked(wire, c, stuck, CStep.SendFrame(down));
  }

  lemma HeadSuits(a: State, down: bool)
    requires TrafficOk(a) && DirOf(a, down).flight != []
    ensures Suits(DirOf(a, down).flight[0], down)
  {
    var m := DirOf(a, down).flight[0];
    assert m in DirOf(a, down).flight;
    assert if down then DownMsg(m, a.conns.Keys) else UpMsg(m, a.conns.Keys);
  }

  lemma TakenMessageFits(a: State, step: Step)
    requires Possible(a, step) && TouchesCarrier(step) && !SendsRecord(step)
    ensures var down := TakesDown(step);
      && ReaderFree(a, down) && DirOf(a, down).flight != [] && step == Taking(down, DirOf(a, down).flight[0], Heeds(step))
  {
  }

  predicate SendsRecord(step: Step) {
    (step.Down? || step.Up?) && (step.s == TakeControl || step.s == TakeFrame)
  }

  predicate Heeds(step: Step) {
    !(step.Handshake? && step.h.IgnoreAnswer?)
  }

  predicate TakesDown(step: Step) {
    match step
    case Down(_) => true
    case Up(_) => false
    case Handshake(_, h) => h == TakeOpen
    case Heart(p) => p == TakePong
  }

  lemma RestingSender(wire: Wire, c: CState, a: State, stuck: set<Obstacle>, step: Step)
    requires CRestingUnder(wire, c, stuck) && c.s == Bare(a) && SendsRecord(step) && !Hindered(stuck + Waiting(c), step)
    ensures !Possible(a, step)
  {
    RestingWriter(wire, c, a, stuck, step.Down?);
  }

  lemma RestingStep(wire: Wire, c: CState, a: State, stuck: set<Obstacle>, step: Step)
    requires Faithful(wire) && TrafficOk(a) && Stands(wire, c, a) && CRestingUnder(wire, c, stuck)
    requires Internal(step) && !Hindered(stuck + Waiting(c), step)
    ensures !Possible(a, step)
  {
    hide CRestingUnder;
    hide TrafficOk;
    if !TouchesCarrier(step) {
      RestingOthers(wire, c, a, stuck, step);
    } else if SendsRecord(step) {
      RestingSender(wire, c, a, stuck, step);
    } else if Possible(a, step) {
      TakenMessageFits(a, step);
      HeadSuits(a, TakesDown(step));
      var cs := LinkCanMove(wire, c, a, TakesDown(step), Heeds(step));
      CBlocked(wire, c, stuck, cs);
    }
  }

  /** When nothing moves at byte level, nothing can move at message level either, except over a carrier that
      holds up its writer. */
  lemma RestRefines(wire: Wire, c: CState, a: State, stuck: set<Obstacle>)
    requires Faithful(wire) && RelayOk(a) && Stands(wire, c, a) && CRestingUnder(wire, c, stuck)
    ensures RestingUnder(a, stuck + Waiting(c))
  {
    forall step | Internal(step) && !Hindered(stuck + Waiting(c), step) ensures !Possible(a, step) {
      RestingStep(wire, c, a, stuck, step);
    }
  }

  /** A carrier holds up its writer at rest only when its network is full and its reader elsewhere. */
  lemma WhyWriterWaits(wire: Wire, c: CState, a: State, stuck: set<Obstacle>, down: bool)
    requires Faithful(wire) && RelayOk(a) && Stands(wire, c, a) && CRestingUnder(wire, c, stuck) && LinkOf(c, down).out != []
    ensures |LinkOf(c, down).net| >= wire.window && !ReaderFree(c.s, down)
  {
    RestingWriter(wire, c, a, stuck, down);
    RestRefines(wire, c, a, stuck);
    hide CRestingUnder;
    hide RestingUnder;
    if ReaderFree(a, down) {
      if down {
        DownIsClear(a, stuck + Waiting(c));
      } else {
        UpIsClear(a, stuck + Waiting(c));
      }
      EmptyLink(wire, LinkOf(c, down));
    }
  }

  lemma EmptyLink(wire: Wire, l: Link)
    requires Holds(wire, l, [])
    ensures l.out == [] && l.net == []
  {
    assert PackAll(wire, []) == [] && Serialize([]) == [];
  }

  /** A relay is at rest, over real carriers, after a run that cut no record. */
  ghost predicate RestsAfter(wire: Wire, csteps: seq<CStep>, d: CState, stuck: set<Obstacle>) {
    Faithful(wire) && CRun(wire, CINITIAL, csteps, d) && CutsNoRecord(wire, CINITIAL, csteps) && CRestingUnder(wire, d, stuck)
  }

  /** When routers and the agent's reader wait at rest, over carriers that hold any fixed number of bytes, and
      with any sockets, handshakes and entries stuck: the routers wait exactly as at message level. The agent's
      reader waits with its heartbeat only when the outbound channel, the writer and the network towards the
      server are full, and the server's router waits: whatever stops it comes to stop the other direction
      as well. A direction whose reader is free has nothing left to send or on its way. */
  lemma ByteRestOrStall(wire: Wire, csteps: seq<CStep>, d: CState, stuck: set<Obstacle>)
    requires RestsAfter(wire, csteps, d, stuck) && Carrier(true) !in stuck && Carrier(false) !in stuck
    ensures d.s.down.hand.Some? <==> exists id :: DownStall(d.s, stuck, id)
    ensures d.s.up.hand.Some? <==> exists id :: UpStall(d.s, stuck, id)
    ensures d.s.pinging ==> |d.s.up.chan| == CHANNEL_SLOTS && d.up.out != [] && |d.up.net| >= wire.window && d.s.up.hand.Some?
    ensures forall down :: ReaderFree(d.s, down) ==>
              LinkOf(d, down).out == [] && LinkOf(d, down).net == [] && DirOf(d.s, down).ctl == [] && DirOf(d.s, down).chan == []
  {
    var steps, b := RefinedFromTheStart(wire, csteps, d);
    OkFromTheStart(steps, b);
    RestRefines(wire, d, b, stuck);
    assert Reachable(b);
    hide RelayOk;
    hide CRestingUnder;
    hide RestingUnder;
    RestOrStall(b, stuck + Waiting(d));
    SameStalls(wire, d, b, stuck);
    if d.up.out != [] {
      WhyWriterWaits(wire, d, b, stuck, false);
    }
    forall down | ReaderFree(d.s, down)
      ensures LinkOf(d, down).out == [] && LinkOf(d, down).net == [] && DirOf(d.s, down).ctl == [] && DirOf(d.s, down).chan == []
    {
      ReaderFreeIsClear(wire, d, b, stuck, down);
    }
  }

  lemma ReaderFreeIsClear(wire: Wire, c: CState, a: State, stuck: set<Obstacle>, down: bool)
    requires Faithful(wire) && RelayOk(a) && Stands(wire, c, a) && CRestingUnder(wire, c, stuck) && ReaderFree(c.s, down)
    ensures LinkOf(c, down).out == [] && LinkOf(c, down).net == [] && DirOf(c.s, down).ctl == [] && DirOf(c.s, down).chan == []
  {
    RestingWriter(wire, c, a, stuck, down);
    if LinkOf(c, down).out != [] {
      WhyWriterWaits(wire, c, a, stuck, down);
    }
    RestRefines(wire, c, a, stuck);
    hide CRestingUnder;
    hide RestingUnder;
    if down {
      DownIsClear(a, stuck + Waiting(c));
    } else {
      UpIsClear(a, stuck + Waiting(c));
    }
    EmptyLink(wire, LinkOf(c, down));
  }

  /** What holds up a router does not depend on what is on the carriers. */
  lemma SameStalls(wire: Wire, c: CState, a: State, stuck: set<Obstacle>)
    requires Stands(wire, c, a)
    ensures forall id :: DownStall(c.s, stuck, id) <==> DownStall(a, stuck + Waiting(c), id)
    ensures forall id :: UpStall(c.s, stuck, id) <==> UpStall(a, stuck + Waiting(c), id)
  {
  }

  // ---------------------------------------------------------------- stalls over bytes

  /** The server's router is stalled behind `id`, and everything towards the server is full: the network, the
      writer, the outbound channel, and the agent's reader waits to send its heartbeat. */
  predicate FullyStalled(wire: Wire, c: CState, id: Uuid) {
    Stall(c.s, id) && Jam(c.s) && c.up.out != [] && |c.up.net| >= wire.window
  }

  lemma StallIsBare(a: State, id: Uuid)
    ensures Stall(Bare(a), id) <==> Stall(a, id)
    ensures Jam(Bare(a)) <==> Jam(a)
  {
  }

  /** No step but one that gives the stalled stream up ends it, and neither reader takes a byte. */
  lemma ByteStallStep(wire: Wire, c: CState, a: State, cs: CStep, id: Uuid)
    requires Faithful(wire) && RelayOk(a) && Stands(wire, c, a) && FullyStalled(wire, c, id) && CPossible(wire, c, cs)
    requires cs.Other? ==> !Ends(c.s.conns[id].server, cs.step, id)
    ensures FullyStalled(wire, CNext(wire, c, cs), id) && CNext(wire, c, cs).s.conns[id].server == c.s.conns[id].server
    ensures !cs.Pull? && !cs.Receive? && !cs.DropRead?
  {
    if cs.Other? {
      SimulateOther(wire, c, a, cs.step);
      StallIsBare(a, id);
      StallIsBare(Next(a, cs.step), id);
      hide RelayOk;
      OtherStall(wire, c, a, cs.step, id);
    } else {
      LinkStall(wire, c, cs, id);
    }
  }

  lemma OtherStall(wire: Wire, c: CState, a: State, step: Step, id: Uuid)
    requires RelayOk(a) && Possible(a, step) && !TouchesCarrier(step) && Stall(a, id) && Jam(a) && c.s == Bare(a)
    requires !Ends(a.conns[id].server, step, id)
    ensures Stall(Next(a, step), id) && Jam(Next(a, step)) && Next(a, step).conns[id].server == a.conns[id].server
  {
    StallStep(a, step, id, id);
    WhatEndsAJam(a, step);
    hide Next;
    hide Possible;
  }

  lemma LinkStall(wire: Wire, c: CState, cs: CStep, id: Uuid)
    requires FullyStalled(wire, c, id) && CPossible(wire, c, cs) && !cs.Other?
    ensures FullyStalled(wire, CNext(wire, c, cs), id) && CNext(wire, c, cs).s.conns == c.s.conns
    ensures !cs.Pull? && !cs.Receive? && !cs.DropRead?
  {
    if cs.Receive? {
      NothingReceived(wire, c, cs, id);
      assert false;
    }
  }

  lemma NothingReceived(wire: Wire, c: CState, cs: CStep, id: Uuid)
    requires FullyStalled(wire, c, id) && cs.Receive?
    ensures !CPossible(wire, c, cs)
  {
  }

  /** A full stall stops both directions, over real carriers and from any state a run that cut no record
      reaches: in every run in which nothing gives the stalled stream up it is still there at the end, and
      neither end has read a byte. */
  lemma {:induction false} FullStallLasts(wire: Wire, c: CState, a: State, csteps: seq<CStep>, d: CState, id: Uuid)
    requires Faithful(wire) && RelayOk(a) && Stands(wire, c, a) && FullyStalled(wire, c, id) && CRun(wire, c, csteps, d)
    requires forall cs :: cs in csteps && cs.Other? ==> !Ends(c.s.conns[id].server, cs.step, id)
    ensures FullyStalled(wire, d, id) && forall cs :: cs in csteps ==> !cs.Pull? && !cs.Receive?
    decreases |csteps|
  {
    if csteps != [] {
      hide FullyStalled;
      hide RelayOk;
      hide Stands;
      hide CPossible;
      hide CNext;
      var cs := csteps[0];
      assert cs in csteps;
      StallHasConn(wire, c, id);
      ByteStallStep(wire, c, a, cs, id);
      StallHasConn(wire, CNext(wire, c, cs), id);
      var b := StepRefines(wire, c, a, cs);
      RunKeepsRelayOk(a, Meaning(a, cs), b);
      assert forall x :: x in csteps[1..] ==> x in csteps;
      FullStallLasts(wire, CNext(wire, c, cs), b, csteps[1..], d, id);
    }
  }

  lemma StallHasConn(wire: Wire, c: CState, id: Uuid)
    requires FullyStalled(wire, c, id)
    ensures id in c.s.conns
  {
  }

  /** The same from the start. */
  lemma {:induction false} ByteStallStopsBothDirections(wire: Wire, past: seq<CStep>, c: CState, csteps: seq<CStep>, d: CState, id: Uuid)
    requires Faithful(wire) && CRun(wire, CINITIAL, past, c) && CutsNoRecord(wire, CINITIAL, past)
    requires FullyStalled(wire, c, id) && CRun(wire, c, csteps, d)
    requires forall cs :: cs in csteps && cs.Other? ==> !Ends(c.s.conns[id].server, cs.step, id)
    ensures FullyStalled(wire, d, id) && forall cs :: cs in csteps ==> !cs.Pull? && !cs.Receive?
  {
    var steps, a := RefinedFromTheStart(wire, past, c);
    OkFromTheStart(steps, a);
    hide RelayOk;
    FullStallLasts(wire, c, a, csteps, d, id);
  }

  // ---------------------------------------------------------------- delivery over bytes

  /** Over real carriers a run without failures comes to rest with nothing held up: neither router waits, and
      so no writer and no heartbeat either. */
  lemma {:induction false} NothingWaits(wire: Wire, csteps: seq<CStep>, d: CState, steps: seq<Step>, b: State)
    requires RestsAfter(wire, csteps, d, {}) && Run(INITIAL, steps, b) && Stands(wire, d, b)
    requires forall st :: st in steps ==> !Failure(st)
    ensures Resting(b)
  {
    OkFromTheStart(steps, b);
    RestRefines(wire, d, b, {});
    hide CRestingUnder;
    hide RestingUnder;
    hide RelayOk;
    hide Stands;
    NoRouterWaits(steps, b, {} + Waiting(d));
    NoWriterWaits(wire, d, b);
    assert {} + Waiting(d) == {};
  }

  /** Nor, when no router does. */
  lemma NoWriterWaits(wire: Wire, c: CState, a: State)
    requires Faithful(wire) && RelayOk(a) && Stands(wire, c, a) && CRestingUnder(wire, c, {})
    requires a.down.hand == None && a.up.hand == None && RestingUnder(a, {} + Waiting(c))
    ensures Waiting(c) == {}
  {
    hide CRestingUnder;
    hide RestingUnder;
    hide RelayOk;
    if c.up.out != [] {
      WhyWriterWaits(wire, c, a, {}, false);
    }
    NotPinging(a, {} + Waiting(c));
    if c.down.out != [] {
      WhyWriterWaits(wire, c, a, {}, true);
    }
  }

  /** Delivery over real carrier bytes: a run without failures that has come to rest, however little the
      networks hold, has delivered everything, as at message level. */
  lemma {:induction false} ByteDelivery(wire: Wire, csteps: seq<CStep>, d: CState, id: Uuid)
    requires RestsAfter(wire, csteps, d, {}) && (forall cs :: cs in csteps ==> !CFailure(cs)) && id in d.s.conns
    ensures var l := LocalOf(d.s, id);
      if Other(Handshake(id, DialFail)) in csteps then l.conn == Conn(SEnded, ARefused, false, false, false)
      else && l.down.written == CArrived(csteps, id, true) && (l.down.eof ==> l.down.sink == Shut)
           && l.up.written == CArrived(csteps, id, false) && (l.up.eof ==> l.up.sink == Shut)
           && (l.down.eof && l.up.eof ==> l.conn == Conn(SEnded, AEnded, false, false, false))
  {
    var steps, b := RefinedFromTheStart(wire, csteps, d);
    NothingWaits(wire, csteps, d, steps, b);
    hide CRestingUnder;
    EverythingIsDelivered(steps, b, id);
    assert LocalOf(d.s, id) == LocalOf(b, id);
  }
}
