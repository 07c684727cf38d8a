/** One direction of the relay, for every stream on one carrier: the reading half of a bridge, the
    bounded outbound channel, the carrier, the frame router, the bounded per-stream channel and the
    writing half of the bridge at the other end. All tasks interleave freely. */
module Pipeline {
  import opened Bytes
  import opened Protocol

  const CHANNEL_SLOTS: nat := 256
  const STREAM_SLOTS: nat := 64
  const READ_BUFFER: nat := 32 * 1024

  datatype Msg = Open(id: Uuid) | Ack(id: Uuid, accepted: bool) | Ping | Pong | Carry(frame: CarrierFrame)

  /** The reading half of a bridge. `Holding` is a frame it is waiting to enqueue. */
  datatype Source = Idle | Reading | Holding(frame: CarrierFrame) | Finished | Aborted

  /** The writing half of a bridge. `Writing` is what is left of the payload being written. */
  datatype Sink = Unstarted | Waiting | Writing(rest: seq<byte>) | Shut | Broken

  /** The receiving end of the per-stream channel. */
  datatype Receiver = Absent | Listening | Dropped

  /** `unread` and `eof`: what the near socket has received and whether its peer has stopped sending.
      `read`, `emitted`, `consumed` and `written` record everything read from the near socket, handed to
      the carrier, taken from the stream channel and written to the far socket. */
  datatype Half = Half(
    unread: seq<byte>, eof: bool, read: seq<byte>, source: Source, emitted: seq<CarrierFrame>,
    receiver: Receiver, queue: seq<CarrierFrame>, consumed: seq<CarrierFrame>, sink: Sink, written: seq<byte>)

  const NEW_HALF := Half([], false, [], Idle, [], Absent, [], [], Unstarted, [])

  /** `ctl` is the unbounded control channel of the server, `chan` the bounded outbound channel,
      `flight` the records on the carrier, oldest first, `hand` the frame the router is delivering. */
  datatype Dir = Dir(chan: seq<Msg>, ctl: seq<Msg>, flight: seq<Msg>, hand: Option<CarrierFrame>, halves: map<Uuid, Half>)

  const NEW_DIR := Dir([], [], [], None, map[])

  function DataFrame(id: Uuid, payload: seq<byte>): CarrierFrame {
    CarrierFrame(FRAME_DATA, id, payload)
  }

  function FinFrame(id: Uuid): CarrierFrame {
    CarrierFrame(FRAME_FIN, id, [])
  }

  // ---------------------------------------------------------------- steps

  datatype DirStep =
    | Arrive(id: Uuid, bytes: seq<byte>)   // environment: more bytes reach the near socket
    | Hangup(id: Uuid)                     // environment: the near peer stops sending
    | Read(id: Uuid, n: nat)
    | ReadEof(id: Uuid)
    | Emit(id: Uuid)
    | TakeControl
    | TakeFrame
    | Fetch
    | Route
    | Pop(id: Uuid)
    | Write(id: Uuid, k: nat)
    | AbortSource(id: Uuid)                // idle timeout or error in the reading half
    | BreakSink(id: Uuid)                  // idle timeout or error in the writing half

  function Put(d: Dir, id: Uuid, h: Half): Dir {
    d.(halves := d.halves[id := h])
  }

  predicate Enabled(d: Dir, step: DirStep) {
    match step
    case Arrive(id, bytes) => id in d.halves && !d.halves[id].eof && bytes != []
    case Hangup(id) => id in d.halves && !d.halves[id].eof
    case Read(id, n) => id in d.halves && d.halves[id].source == Reading && 1 <= n <= |d.halves[id].unread| && n <= READ_BUFFER
    case ReadEof(id) => id in d.halves && d.halves[id].source == Reading && d.halves[id].unread == [] && d.halves[id].eof
    case Emit(id) => id in d.halves && d.halves[id].source.Holding? && |d.chan| < CHANNEL_SLOTS
    case TakeControl => d.ctl != []
    case TakeFrame => d.chan != []
    case Fetch => d.hand == None && d.flight != [] && d.flight[0].Carry?
    case Route => d.hand.Some? && RouteReady(d, d.hand.value.id)
    case Pop(id) => id in d.halves && d.halves[id].sink == Waiting && d.halves[id].queue != []
    case Write(id, k) => id in d.halves && d.halves[id].sink.Writing? && 1 <= k <= |d.halves[id].sink.rest|
    case AbortSource(id) => id in d.halves && (d.halves[id].source == Reading || d.halves[id].source.Holding?)
    case BreakSink(id) => id in d.halves && (d.halves[id].sink == Waiting || d.halves[id].sink.Writing?)
  }

  /** The router waits only for room in the channel of a stream that is being listened to. */
  predicate RouteReady(d: Dir, id: Uuid) {
    id in d.halves && d.halves[id].receiver == Listening ==> |d.halves[id].queue| < STREAM_SLOTS
  }

  /** One `read` of at most 32 KiB, wrapped in a DATA frame. */
  function AfterRead(h: Half, id: Uuid, n: nat): Half
    requires n <= |h.unread|
  {
    h.(unread := h.unread[n..], read := h.read + h.unread[..n], source := Holding(DataFrame(id, h.unread[..n])))
  }

  function AfterEmit(h: Half): Half
    requires h.source.Holding?
  {
    h.(emitted := h.emitted + [h.source.frame],
       source := if h.source.frame.kind == FRAME_FIN then Finished else Reading)
  }

  /** The router's send: a frame for a receiver that is gone is dropped. */
  function AfterRoute(h: Half, f: CarrierFrame): Half {
    if h.receiver == Listening then h.(queue := h.queue + [f]) else h
  }

  /** The writing half takes the next frame and acts on its kind. */
  function AfterPop(h: Half): Half
    requires h.queue != []
  {
    var f := h.queue[0];
    h.(queue := h.queue[1..], consumed := h.consumed + [f],
       sink := if f.kind == FRAME_DATA then (if f.payload == [] then Waiting else Writing(f.payload))
               else if f.kind == FRAME_FIN then Shut
               else if f.kind == FRAME_RESET then Broken
               else Waiting)
  }

  /** `write_all` may need several writes. */
  function AfterWrite(h: Half, k: nat): Half
    requires h.sink.Writing? && k <= |h.sink.rest|
  {
    h.(written := h.written + h.sink.rest[..k],
       sink := if k == |h.sink.rest| then Waiting else Writing(h.sink.rest[k..]))
  }

  function Apply(d: Dir, step: DirStep): Dir
    requires Enabled(d, step)
  {
    match step
    case Arrive(id, bytes) => var h := d.halves[id]; Put(d, id, h.(unread := h.unread + bytes))
    case Hangup(id) => Put(d, id, d.halves[id].(eof := true))
    case Read(id, n) => Put(d, id, AfterRead(d.halves[id], id, n))
    case ReadEof(id) => Put(d, id, d.halves[id].(source := Holding(FinFrame(id))))
    case Emit(id) => Put(d.(chan := d.chan + [Carry(d.halves[id].source.frame)]), id, AfterEmit(d.halves[id]))
    case TakeControl => d.(ctl := d.ctl[1..], flight := d.flight + [d.ctl[0]])
    case TakeFrame => d.(chan := d.chan[1..], flight := d.flight + [d.chan[0]])
    case Fetch => d.(flight := d.flight[1..], hand := Some(d.flight[0].frame))
    case Route =>
      var f := d.hand.value;
      if f.id in d.halves then Put(d.(hand := None), f.id, AfterRoute(d.halves[f.id], f)) else d.(hand := None)
    case Pop(id) => Put(d, id, AfterPop(d.halves[id]))
    case Write(id, k) => Put(d, id, AfterWrite(d.halves[id], k))
    case AbortSource(id) => Put(d, id, d.halves[id].(source := Aborted))
    case BreakSink(id) => Put(d, id, d.halves[id].(sink := Broken))
  }

  // ---------------------------------------------------------------- what is on the way

  function Payloads(fs: seq<CarrierFrame>): seq<byte> {
    if fs == [] then [] else Payloads(fs[..|fs| - 1]) + fs[|fs| - 1].payload
  }

  function FramesOf(ms: seq<Msg>, id: Uuid): seq<CarrierFrame> {
    if ms == [] then []
    else FrameOf(ms[0], id) + FramesOf(ms[1..], id)
  }

  function FrameOf(m: Msg, id: Uuid): seq<CarrierFrame> {
    if m.Carry? && m.frame.id == id then [m.frame] else []
  }

  function HandOf(hand: Option<CarrierFrame>, id: Uuid): seq<CarrierFrame> {
    if hand.Some? && hand.value.id == id then [hand.value] else []
  }

  /** The frames of stream `id` between the outbound channel and the stream channel, oldest first. */
  function OnWay(d: Dir, id: Uuid): seq<CarrierFrame> {
    HandOf(d.hand, id) + FramesOf(d.flight, id) + FramesOf(d.chan, id)
  }

  lemma Regroup<T>(a: seq<T>, b: seq<T>, c: seq<T>, d: seq<T>)
    ensures a + (b + c) + d == (a + b) + (c + d) == a + b + c + d
    ensures [] + a == a
  {
  }

  lemma {:induction false} FramesOfAppend(a: seq<Msg>, b: seq<Msg>, id: Uuid)
    ensures FramesOf(a + b, id) == FramesOf(a, id) + FramesOf(b, id)
  {
    if a == [] {
      assert a + b == b;
    } else {
      FramesOfAppend(a[1..], b, id);
      assert (a + b)[1..] == a[1..] + b && (a + b)[0] == a[0];
      Regroup([], FrameOf(a[0], id), FramesOf(a[1..], id), FramesOf(b, id));
    }
  }

  lemma {:induction false} FramesOfSnoc(a: seq<Msg>, m: Msg, id: Uuid)
    ensures FramesOf(a + [m], id) == FramesOf(a, id) + FrameOf(m, id)
  {
    FramesOfAppend(a, [m], id);
    assert [m][1..] == [];
  }

  lemma {:induction false} PayloadsAppend(a: seq<CarrierFrame>, b: seq<CarrierFrame>)
    ensures Payloads(a + b) == Payloads(a) + Payloads(b)
  {
    if b == [] {
      assert a + b == a;
    } else {
      var n := |b| - 1;
      PayloadsAppend(a, b[..n]);
      assert (a + b)[..|a + b| - 1] == a + b[..n];
      assert (a + b)[|a + b| - 1] == b[n];
    }
  }

  lemma {:induction false} PayloadsSnoc(a: seq<CarrierFrame>, f: CarrierFrame)
    ensures Payloads(a + [f]) == Payloads(a) + f.payload
  {
    assert (a + [f])[..|a|] == a;
  }

  // ---------------------------------------------------------------- invariant

  predicate GoodFrame(f: CarrierFrame, id: Uuid) {
    && f.id == id
    && (|| (f.kind == FRAME_DATA && 1 <= |f.payload| <= READ_BUFFER)
        || (f.kind == FRAME_FIN && f.payload == []))
  }

  /** DATA frames of one stream, with a FIN nowhere but at the end. */
  ghost predicate Orderly(fs: seq<CarrierFrame>, id: Uuid) {
    forall i :: 0 <= i < |fs| ==> GoodFrame(fs[i], id) && (fs[i].kind == FRAME_FIN ==> i == |fs| - 1)
  }

  predicate Ended(fs: seq<CarrierFrame>) {
    fs != [] && fs[|fs| - 1].kind == FRAME_FIN
  }

  ghost predicate SourceOk(h: Half, id: Uuid) {
    && Orderly(h.emitted, id)
    && match h.source
       case Idle => h.emitted == [] && h.read == []
       case Reading => !Ended(h.emitted) && h.read == Payloads(h.emitted)
       case Holding(f) =>
         && GoodFrame(f, id) && !Ended(h.emitted) && h.read == Payloads(h.emitted) + f.payload
         && (f.kind == FRAME_FIN ==> h.unread == [] && h.eof)
       case Finished => Ended(h.emitted) && h.read == Payloads(h.emitted) && h.unread == [] && h.eof
       case Aborted => !Ended(h.emitted) && Payloads(h.emitted) <= h.read
  }

  ghost predicate SinkOk(h: Half) {
    match h.sink
    case Unstarted => h.consumed == [] && h.written == []
    case Waiting => !Ended(h.consumed) && h.written == Payloads(h.consumed)
    case Writing(rest) => rest != [] && !Ended(h.consumed) && h.written + rest == Payloads(h.consumed)
    case Shut => Ended(h.consumed) && h.written == Payloads(h.consumed)
    case Broken => h.written <= Payloads(h.consumed)
  }

  /** While the stream channel is listened to, the frames handed to the carrier are exactly those
      consumed, queued and on the way, in this order. */
  ghost predicate ReceiverOk(h: Half, way: seq<CarrierFrame>) {
    && |h.queue| <= STREAM_SLOTS
    && match h.receiver
       case Absent => h.source == Idle && h.queue == [] && h.consumed == [] && h.sink == Unstarted && way == []
       case Listening => h.emitted == h.consumed + h.queue + way
       case Dropped => h.queue == [] && h.consumed <= h.emitted && h.sink != Waiting && !h.sink.Writing?
  }

  ghost predicate HalfOk(h: Half, way: seq<CarrierFrame>, id: Uuid) {
    SourceOk(h, id) && SinkOk(h) && ReceiverOk(h, way)
  }

  predicate Known(m: Msg, ids: set<Uuid>) {
    m.Carry? ==> m.frame.id in ids
  }

  ghost predicate DirOk(d: Dir) {
    && |d.chan| <= CHANNEL_SLOTS
    && (forall m :: m in d.ctl ==> !m.Carry?)
    && (forall m :: m in d.chan ==> Known(m, d.halves.Keys))
    && (forall m :: m in d.flight ==> Known(m, d.halves.Keys))
    && (d.hand.Some? ==> d.hand.value.id in d.halves)
    && forall id :: id in d.halves ==> HalfOk(d.halves[id], OnWay(d, id), id)
  }

  // ---------------------------------------------------------------- what the invariant gives

  lemma {:induction false} PayloadsMonotone(a: seq<CarrierFrame>, b: seq<CarrierFrame>)
    requires a <= b
    ensures Payloads(a) <= Payloads(b)
  {
    assert b == a + b[|a|..];
    PayloadsAppend(a, b[|a|..]);
  }

  /** The bytes written at the far socket are a prefix of the bytes read at the near one. */
  lemma WrittenIsPrefixOfRead(h: Half, way: seq<CarrierFrame>, id: Uuid)
    requires HalfOk(h, way, id)
    ensures h.written <= h.read
    ensures h.consumed <= h.emitted
  {
    PayloadsMonotone(h.consumed, h.emitted);
    assert h.written <= Payloads(h.consumed);
  }

  /** Once the far writer has been shut down by a FIN, it has written every byte that was ever read. */
  lemma ShutMeansComplete(h: Half, way: seq<CarrierFrame>, id: Uuid)
    requires HalfOk(h, way, id) && h.sink == Shut
    ensures h.consumed == h.emitted && h.source == Finished
    ensures h.written == h.read && h.unread == [] && h.eof
  {
    WrittenIsPrefixOfRead(h, way, id);
    assert h.emitted[|h.consumed| - 1] == h.consumed[|h.consumed| - 1];
  }

  // ---------------------------------------------------------------- preservation, one stream

  lemma ReadKeeps(h: Half, way: seq<CarrierFrame>, id: Uuid, n: nat)
    requires HalfOk(h, way, id) && h.source == Reading && 1 <= n <= |h.unread| && n <= READ_BUFFER
    ensures HalfOk(AfterRead(h, id, n), way, id)
  {
  }

  lemma EmitKeeps(h: Half, way: seq<CarrierFrame>, id: Uuid)
    requires HalfOk(h, way, id) && h.source.Holding?
    ensures HalfOk(AfterEmit(h), way + [h.source.frame], id)
  {
    var f, h' := h.source.frame, AfterEmit(h);
    PayloadsSnoc(h.emitted, f);
    assert Orderly(h'.emitted, id);
    assert SourceOk(h', id);
    if h.receiver == Listening {
      assert h'.emitted == h.consumed + h.queue + (way + [f]);
    }
  }

  lemma RouteKeeps(h: Half, f: CarrierFrame, way: seq<CarrierFrame>, id: Uuid)
    requires HalfOk(h, [f] + way, id)
    requires h.receiver == Listening ==> |h.queue| < STREAM_SLOTS
    ensures HalfOk(AfterRoute(h, f), way, id)
  {
    if h.receiver == Listening {
      assert h.consumed + h.queue + ([f] + way) == h.consumed + (h.queue + [f]) + way;
    }
  }

  lemma PopKeeps(h: Half, way: seq<CarrierFrame>, id: Uuid)
    requires HalfOk(h, way, id) && h.sink == Waiting && h.queue != []
    ensures HalfOk(AfterPop(h), way, id)
  {
    var f, h' := h.queue[0], AfterPop(h);
    assert h.consumed + h.queue + way == h'.consumed + h'.queue + way;
    assert h.emitted[|h.consumed|] == f;
    PayloadsSnoc(h.consumed, f);
    assert SinkOk(h');
  }

  lemma WriteKeeps(h: Half, way: seq<CarrierFrame>, id: Uuid, k: nat)
    requires HalfOk(h, way, id) && h.sink.Writing? && 1 <= k <= |h.sink.rest|
    ensures HalfOk(AfterWrite(h, k), way, id)
  {
    var rest, h' := h.sink.rest, AfterWrite(h, k);
    assert h.written + rest == h'.written + rest[k..];
    assert SinkOk(h');
  }

  lemma BreakKeeps(h: Half, way: seq<CarrierFrame>, id: Uuid)
    requires HalfOk(h, way, id) && (h.sink == Waiting || h.sink.Writing?)
    ensures HalfOk(h.(sink := Broken), way, id)
  {
  }

  // ---------------------------------------------------------------- preservation, all streams

  lemma OthersUntouched(d: Dir, d': Dir, id: Uuid)
    requires DirOk(d)
    requires |d'.chan| <= CHANNEL_SLOTS && d'.ctl == d.ctl
    requires forall m :: m in d'.chan ==> Known(m, d.halves.Keys)
    requires forall m :: m in d'.flight ==> Known(m, d.halves.Keys)
    requires d'.hand.Some? ==> d'.hand.value.id in d.halves
    requires id in d.halves && id in d'.halves && d'.halves == d.halves[id := d'.halves[id]]
    requires forall j :: j in d.halves && j != id ==> OnWay(d', j) == OnWay(d, j)
    requires HalfOk(d'.halves[id], OnWay(d', id), id)
    ensures DirOk(d') && d'.halves.Keys == d.halves.Keys
  {
    assert d'.halves.Keys == d.halves.Keys;
  }

  lemma SameCarrier(d: Dir, d': Dir, id: Uuid)
    requires DirOk(d) && id in d.halves && id in d'.halves
    requires d' == Put(d, id, d'.halves[id])
    requires HalfOk(d'.halves[id], OnWay(d, id), id)
    ensures DirOk(d') && d'.halves.Keys == d.halves.Keys
  {
    OthersUntouched(d, d', id);
  }

  lemma EmitOnWay(d: Dir, id: Uuid, j: Uuid)
    requires Enabled(d, Emit(id)) && d.halves[id].source.frame.id == id
    ensures OnWay(Apply(d, Emit(id)), j) == OnWay(d, j) + (if j == id then [d.halves[id].source.frame] else [])
  {
    var f := d.halves[id].source.frame;
    FramesOfSnoc(d.chan, Carry(f), j);
    Regroup(HandOf(d.hand, j) + FramesOf(d.flight, j), FramesOf(d.chan, j), FrameOf(Carry(f), j), []);
  }

  lemma EmitStep(d: Dir, id: Uuid)
    requires DirOk(d) && Enabled(d, Emit(id))
    ensures DirOk(Apply(d, Emit(id)))
  {
    var h, way := d.halves[id], OnWay(d, id);
    assert HalfOk(h, way, id);
    forall j ensures OnWay(Apply(d, Emit(id)), j) == OnWay(d, j) + (if j == id then [h.source.frame] else []) {
      EmitOnWay(d, id, j);
    }
    EmitKeeps(h, way, id);
    OthersUntouched(d, Apply(d, Emit(id)), id);
  }

  lemma MovedAlong(d: Dir, step: DirStep, id: Uuid)
    requires Enabled(d, step) && (step.TakeControl? || step.TakeFrame? || step.Fetch?)
    requires forall m :: m in d.ctl ==> !m.Carry?
    ensures OnWay(Apply(d, step), id) == OnWay(d, id)
  {
    if step.TakeControl? {
      FramesOfSnoc(d.flight, d.ctl[0], id);
    } else if step.TakeFrame? {
      FramesOfSnoc(d.flight, d.chan[0], id);
      Regroup(HandOf(d.hand, id), FramesOf(d.flight, id), FrameOf(d.chan[0], id), FramesOf(d.chan[1..], id));
    }
  }

  lemma CarrierSteps(d: Dir, step: DirStep)
    requires DirOk(d) && Enabled(d, step) && (step.TakeControl? || step.TakeFrame? || step.Fetch?)
    ensures DirOk(Apply(d, step))
  {
    forall j ensures OnWay(Apply(d, step), j) == OnWay(d, j) {
      MovedAlong(d, step, j);
    }
    if step.Fetch? {
      assert Known(d.flight[0], d.halves.Keys);
    }
  }

  lemma RouteOnWay(d: Dir, j: Uuid)
    requires Enabled(d, Route)
    ensures OnWay(d, j) == (if j == d.hand.value.id then [d.hand.value] else []) + OnWay(Apply(d, Route), j)
  {
  }

  lemma RouteStep(d: Dir)
    requires DirOk(d) && Enabled(d, Route)
    ensures DirOk(Apply(d, Route)) && Apply(d, Route).halves.Keys == d.halves.Keys
  {
    var d', f := Apply(d, Route), d.hand.value;
    forall j ensures OnWay(d, j) == (if j == f.id then [f] else []) + OnWay(d', j) {
      RouteOnWay(d, j);
    }
    RouteKeeps(d.halves[f.id], f, OnWay(d', f.id), f.id);
    OthersUntouched(d, d', f.id);
  }

  predicate SourceStep(step: DirStep) {
    step.Arrive? || step.Hangup? || step.Read? || step.ReadEof? || step.AbortSource?
  }

  lemma SourceSteps(d: Dir, step: DirStep)
    requires DirOk(d) && Enabled(d, step) && SourceStep(step)
    ensures DirOk(Apply(d, step)) && Apply(d, step).halves.Keys == d.halves.Keys
  {
    var id, d' := step.id, Apply(d, step);
    if step.Read? {
      ReadKeeps(d.halves[id], OnWay(d, id), id, step.n);
    } else {
      SourceKeeps(d.halves[id], d'.halves[id], OnWay(d, id), id, step);
    }
    SameCarrier(d, d', id);
  }

  lemma SourceKeeps(h: Half, h': Half, way: seq<CarrierFrame>, id: Uuid, step: DirStep)
    requires HalfOk(h, way, id)
    requires || (step.Arrive? && !h.eof && h' == h.(unread := h.unread + step.bytes))
             || (step.Hangup? && !h.eof && h' == h.(eof := true))
             || (step.ReadEof? && h.source == Reading && h.unread == [] && h.eof && h' == h.(source := Holding(FinFrame(id))))
             || (step.AbortSource? && (h.source == Reading || h.source.Holding?) && h' == h.(source := Aborted))
    ensures HalfOk(h', way, id)
  {
  }

  lemma SinkSteps(d: Dir, step: DirStep)
    requires DirOk(d) && Enabled(d, step) && (step.Pop? || step.Write? || step.BreakSink?)
    ensures DirOk(Apply(d, step)) && Apply(d, step).halves.Keys == d.halves.Keys
  {
    var id, d' := step.id, Apply(d, step);
    var h, way := d.halves[id], OnWay(d, id);
    match step {
      case Pop(_) => PopKeeps(h, way, id);
      case Write(_, k) => WriteKeeps(h, way, id, k);
      case BreakSink(_) => BreakKeeps(h, way, id);
    }
    SameCarrier(d, d', id);
  }

  /** Every step of every task, in any interleaving, keeps the invariant of the direction. */
  lemma StepKeepsDirOk(d: Dir, step: DirStep)
    requires DirOk(d) && Enabled(d, step)
    ensures DirOk(Apply(d, step))
    ensures Apply(d, step).halves.Keys == d.halves.Keys
  {
    if SourceStep(step) {
      SourceSteps(d, step);
    } else if step.Emit? {
      EmitStep(d, step.id);
    } else if step.Route? {
      RouteStep(d);
    } else if step.Pop? || step.Write? || step.BreakSink? {
      SinkSteps(d, step);
    } else {
      CarrierSteps(d, step);
    }
  }

  // ---------------------------------------------------------------- handshake steps

  lemma {:induction false} NoStrangers(ms: seq<Msg>, ids: set<Uuid>, id: Uuid)
    requires (forall m :: m in ms ==> Known(m, ids)) && id !in ids
    ensures FramesOf(ms, id) == []
  {
    if ms != [] {
      assert Known(ms[0], ids);
      NoStrangers(ms[1..], ids, id);
    }
  }

  lemma AddKeeps(d: Dir, id: Uuid, h: Half)
    requires DirOk(d) && id !in d.halves
    requires h == NEW_HALF || h == NEW_HALF.(receiver := Listening)
    ensures DirOk(Put(d, id, h))
  {
    var d' := Put(d, id, h);
    NoStrangers(d.flight, d.halves.Keys, id);
    NoStrangers(d.chan, d.halves.Keys, id);
    assert OnWay(d', id) == [];
    assert forall j :: OnWay(d', j) == OnWay(d, j);
    assert d'.halves.Keys == d.halves.Keys + {id};
  }

  lemma PhaseKeeps(d: Dir, id: Uuid, h: Half)
    requires DirOk(d) && id in d.halves
    requires var g := d.halves[id];
      || (h == g.(source := Reading) && g.source == Idle && g.receiver != Absent)
      || (h == g.(sink := Waiting) && g.sink == Unstarted && g.receiver == Listening)
      || (h == g.(receiver := Listening) && g.receiver == Absent)
      || (h == g.(receiver := Dropped, queue := []) && g.receiver == Listening && g.sink != Waiting && !g.sink.Writing?)
    ensures DirOk(Put(d, id, h)) && Put(d, id, h).halves.Keys == d.halves.Keys
  {
    SameCarrier(d, Put(d, id, h), id);
  }

  /** `d'` is `d` with one more control message in a channel, or with one taken off the carrier. */
  ghost predicate MovedControl(d: Dir, d': Dir, m: Msg) {
    && !m.Carry?
    && (|| d' == d.(ctl := d.ctl + [m])
        || (d' == d.(chan := d.chan + [m]) && |d.chan| < CHANNEL_SLOTS)
        || (d.flight != [] && d.flight[0] == m && d' == d.(flight := d.flight[1..])))
  }

  lemma ControlOnWay(d: Dir, d': Dir, m: Msg, id: Uuid)
    requires MovedControl(d, d', m)
    ensures OnWay(d', id) == OnWay(d, id)
  {
    FramesOfSnoc(d.chan, m, id);
  }

  lemma ControlKeeps(d: Dir, d': Dir, m: Msg)
    requires DirOk(d) && MovedControl(d, d', m)
    ensures DirOk(d') && d'.halves == d.halves
  {
    forall j | j in d.halves ensures HalfOk(d'.halves[j], OnWay(d', j), j) {
      ControlOnWay(d, d', m, j);
      assert HalfOk(d.halves[j], OnWay(d, j), j);
    }
  }

  // ---------------------------------------------------------------- control messages in transit

  function Count(ms: seq<Msg>, m: Msg): nat {
    if ms == [] then 0 else (if ms[0] == m then 1 else 0) + Count(ms[1..], m)
  }

  function InTransit(d: Dir, m: Msg): nat {
    Count(d.ctl, m) + Count(d.flight, m) + Count(d.chan, m)
  }

  lemma {:induction false} CountSnoc(ms: seq<Msg>, x: Msg, m: Msg)
    ensures Count(ms + [x], m) == Count(ms, m) + (if x == m then 1 else 0)
  {
    if ms == [] {
      assert [x][1..] == [];
      assert ms + [x] == [x];
    } else {
      CountSnoc(ms[1..], x, m);
      assert (ms + [x])[1..] == ms[1..] + [x];
    }
  }

  lemma {:induction false} CountedIsMember(ms: seq<Msg>, m: Msg)
    ensures Count(ms, m) > 0 <==> m in ms
  {
    if ms != [] {
      CountedIsMember(ms[1..], m);
    }
  }

  /** Data steps neither create nor lose control messages. */
  lemma StepKeepsControl(d: Dir, step: DirStep, m: Msg)
    requires Enabled(d, step) && !m.Carry?
    ensures InTransit(Apply(d, step), m) == InTransit(d, m)
  {
    if step.TakeControl? {
      CountSnoc(d.flight, d.ctl[0], m);
    } else if step.TakeFrame? {
      CountSnoc(d.flight, d.chan[0], m);
    } else if step.Emit? {
      CountSnoc(d.chan, Carry(d.halves[step.id].source.frame), m);
    }
  }

  predicate SourceOver(h: Half) {
    h.source == Finished || h.source == Aborted
  }

  predicate SinkOver(h: Half) {
    h.sink == Shut || h.sink == Broken
  }

  /** Data steps never start, restart or register anything. */
  ghost predicate SamePhase(h: Half, h': Half) {
    && h'.receiver == h.receiver
    && (h'.source == Idle <==> h.source == Idle)
    && (h'.sink == Unstarted <==> h.sink == Unstarted)
    && (SourceOver(h) ==> SourceOver(h'))
    && (SinkOver(h) ==> SinkOver(h'))
  }

  lemma StepKeepsPhase(d: Dir, step: DirStep, id: Uuid)
    requires Enabled(d, step) && id in d.halves
    ensures id in Apply(d, step).halves && SamePhase(d.halves[id], Apply(d, step).halves[id])
  {
  }
}
