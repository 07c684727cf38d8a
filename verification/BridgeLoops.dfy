/** The two loops of a bridge, which the server and the agent run alike: what they send and write, given what
    their sockets, their channel and their carrier do, turn by turn. */
module BridgeLoops {
  import opened Bytes
  import opened Protocol
  import Pipeline

  /** One turn of the upstream loop: what the read from the socket gave, and whether the carrier
      took the frame. */
  datatype ReadTurn = Data(bytes: seq<byte>, sent: bool) | Eof(sent: bool) | ReadFails

  /** One turn of the downstream loop: the next frame, and how many bytes of its payload the socket accepts
      before it fails, if it does; the stream channel closed; or nothing came in time. */
  datatype WriteTurn = Frame(kind: byte, payload: seq<byte>, accepted: nat) | ChannelClosed | IdleTimeout

  /** What one turn of the upstream loop hands to the carrier, and whether it is the last one. */
  function FramesOf(id: Uuid, turn: ReadTurn): seq<CarrierFrame> {
    match turn
    case Data(bytes, sent) => if sent then [CarrierFrame(FRAME_DATA, id, bytes)] else []
    case Eof(sent) => if sent then [CarrierFrame(FRAME_FIN, id, [])] else []
    case ReadFails => []
  }

  predicate LastRead(turn: ReadTurn) {
    !turn.Data? || !turn.sent
  }

  /** The frames the upstream loop hands to the carrier. */
  function UpFrames(id: Uuid, turns: seq<ReadTurn>): seq<CarrierFrame> {
    if turns == [] then []
    else FramesOf(id, turns[0]) + (if LastRead(turns[0]) then [] else UpFrames(id, turns[1..]))
  }

  /** What one turn of the downstream loop writes to the socket, and whether it is the last one. `write_all`
      may fail after some bytes. */
  function Wrote(turn: WriteTurn): seq<byte> {
    if !turn.Frame? || turn.kind != FRAME_DATA then []
    else if turn.accepted >= |turn.payload| then turn.payload
    else turn.payload[..turn.accepted]
  }

  predicate LastWrite(turn: WriteTurn) {
    || !turn.Frame? || turn.kind == FRAME_FIN || turn.kind == FRAME_RESET
    || (turn.kind == FRAME_DATA && turn.accepted < |turn.payload|)
  }

  /** The bytes the downstream loop writes to the socket. */
  function Written(turns: seq<WriteTurn>): seq<byte> {
    if turns == [] then []
    else Wrote(turns[0]) + (if LastWrite(turns[0]) then [] else Written(turns[1..]))
  }

  /** A FIN comes before anything else ends the loop, and the socket is shut down. */
  predicate ShutsDown(turns: seq<WriteTurn>) {
    turns != [] && if LastWrite(turns[0]) then turns[0].Frame? && turns[0].kind == FRAME_FIN else ShutsDown(turns[1..])
  }

  /** Those of payloads written as a whole, which are the ones counted. */
  function Complete(turns: seq<WriteTurn>): seq<byte> {
    if turns == [] || LastWrite(turns[0]) then [] else Wrote(turns[0]) + Complete(turns[1..])
  }

  /** The downstream loop with turn `i` next. */
  lemma {:induction false} WriteUnfold(turns: seq<WriteTurn>, i: nat)
    requires i < |turns|
    ensures var turn, over := turns[i], LastWrite(turns[i]);
      && Written(turns[i..]) == Wrote(turn) + (if over then [] else Written(turns[i + 1..]))
      && Complete(turns[i..]) == (if over then [] else Wrote(turn) + Complete(turns[i + 1..]))
      && (ShutsDown(turns[i..]) <==> if over then turn.Frame? && turn.kind == FRAME_FIN else ShutsDown(turns[i + 1..]))
  {
    assert turns[i..][0] == turns[i] && turns[i..][1..] == turns[i + 1..];
  }

  lemma {:induction false} NothingWritten()
    ensures Written([]) == [] && Complete([]) == [] && !ShutsDown([])
  {
  }

  /** The counted bytes are the first of those written, and fall short exactly by the accepted part of the
      one payload whose writing failed. */
  lemma {:induction false} CountedFallsShort(turns: seq<WriteTurn>)
    ensures Complete(turns) <= Written(turns)
    ensures Complete(turns) != Written(turns) ==>
      exists i :: 0 <= i < |turns| && turns[i].Frame? && turns[i].kind == FRAME_DATA && turns[i].accepted < |turns[i].payload|
                  && Written(turns) == Complete(turns) + turns[i].payload[..turns[i].accepted]
    decreases |turns|
  {
    if turns != [] && !LastWrite(turns[0]) {
      var rest := turns[1..];
      CountedFallsShort(rest);
      if Complete(rest) != Written(rest) {
        var i :| 0 <= i < |rest| && rest[i].Frame? && rest[i].kind == FRAME_DATA && rest[i].accepted < |rest[i].payload|
                 && Written(rest) == Complete(rest) + rest[i].payload[..rest[i].accepted];
        assert turns[i + 1] == rest[i];
        Associate(Wrote(turns[0]), Complete(rest), rest[i].payload[..rest[i].accepted]);
      }
    } else if turns != [] {
      assert Wrote(turns[0]) + [] == Wrote(turns[0]) && [] + Wrote(turns[0]) == Wrote(turns[0]);
    }
  }

  // ---------------------------------------------------------------- the loops interleaved

  /** One of the two loops gets a turn. */
  datatype BridgeTurn = Reads(read: ReadTurn) | Writes(write: WriteTurn)

  function ReadsIn(turns: seq<BridgeTurn>): seq<ReadTurn> {
    if turns == [] then [] else (if turns[0].Reads? then [turns[0].read] else []) + ReadsIn(turns[1..])
  }

  function WritesIn(turns: seq<BridgeTurn>): seq<WriteTurn> {
    if turns == [] then [] else (if turns[0].Writes? then [turns[0].write] else []) + WritesIn(turns[1..])
  }

  /** What is still to come of either loop when turn `i` is next. */
  lemma {:induction false} TurnUnfold(id: Uuid, turns: seq<BridgeTurn>, i: nat)
    requires i < |turns|
    ensures turns[i].Reads? ==>
      && UpFrames(id, ReadsIn(turns[i..])) == FramesOf(id, turns[i].read)
           + (if LastRead(turns[i].read) then [] else UpFrames(id, ReadsIn(turns[i + 1..])))
      && WritesIn(turns[i..]) == WritesIn(turns[i + 1..])
    ensures turns[i].Writes? ==>
      && Written(WritesIn(turns[i..])) == Wrote(turns[i].write)
           + (if LastWrite(turns[i].write) then [] else Written(WritesIn(turns[i + 1..])))
      && Complete(WritesIn(turns[i..])) ==
           (if LastWrite(turns[i].write) then [] else Wrote(turns[i].write) + Complete(WritesIn(turns[i + 1..])))
      && (ShutsDown(WritesIn(turns[i..])) <==>
            if LastWrite(turns[i].write) then turns[i].write.Frame? && turns[i].write.kind == FRAME_FIN
            else ShutsDown(WritesIn(turns[i + 1..])))
      && ReadsIn(turns[i..]) == ReadsIn(turns[i + 1..])
  {
    var rest := turns[i + 1..];
    assert turns[i..][1..] == rest && turns[i..][0] == turns[i];
    match turns[i] {
      case Reads(r) =>
        assert ReadsIn(turns[i..]) == [r] + ReadsIn(rest) && ([r] + ReadsIn(rest))[1..] == ReadsIn(rest);
        assert [] + WritesIn(rest) == WritesIn(rest);
      case Writes(w) =>
        assert WritesIn(turns[i..]) == [w] + WritesIn(rest) && ([w] + WritesIn(rest))[1..] == WritesIn(rest);
        assert [] + ReadsIn(rest) == ReadsIn(rest);
    }
  }

  /** How far the two loops have come. */
  datatype Progress = Progress(
    frames: seq<CarrierFrame>, upOver: bool, written: seq<byte>, counted: seq<byte>, downOver: bool, shut: bool)

  ghost predicate Makes<T>(done: seq<T>, rest: seq<T>, whole: seq<T>) {
    done + rest == whole
  }

  /** After `i` turns: what is done and what is still to come make up the whole. */
  ghost predicate Joined(id: Uuid, turns: seq<BridgeTurn>, i: nat, p: Progress) {
    && i <= |turns|
    && Makes(p.frames, if p.upOver then [] else UpFrames(id, ReadsIn(turns[i..])), UpFrames(id, ReadsIn(turns)))
    && Makes(p.written, if p.downOver then [] else Written(WritesIn(turns[i..])), Written(WritesIn(turns)))
    && Makes(p.counted, if p.downOver then [] else Complete(WritesIn(turns[i..])), Complete(WritesIn(turns)))
    && (ShutsDown(WritesIn(turns)) <==> if p.downOver then p.shut else ShutsDown(WritesIn(turns[i..])))
  }

  function AfterTurn(id: Uuid, turn: BridgeTurn, p: Progress): Progress {
    match turn
    case Reads(read) =>
      if p.upOver then p else p.(frames := p.frames + FramesOf(id, read), upOver := LastRead(read))
    case Writes(write) =>
      if p.downOver then p
      else p.(written := p.written + Wrote(write), counted := p.counted + (if LastWrite(write) then [] else Wrote(write)),
              downOver := LastWrite(write), shut := write.Frame? && write.kind == FRAME_FIN)
  }

  lemma Onward<T>(done: seq<T>, now: seq<T>, rest: seq<T>, whole: seq<T>)
    requires Makes(done, now + rest, whole)
    ensures Makes(done + now, rest, whole)
  {
    Associate(done, now, rest);
  }

  lemma OneTurn(id: Uuid, turns: seq<BridgeTurn>, i: nat, p: Progress)
    requires i < |turns| && Joined(id, turns, i, p)
    ensures Joined(id, turns, i + 1, AfterTurn(id, turns[i], p))
  {
    TurnUnfold(id, turns, i);
    hide Makes;
    hide UpFrames;
    hide Written;
    hide Complete;
    hide ShutsDown;
    hide ReadsIn;
    hide WritesIn;
    hide FramesOf;
    hide Wrote;
    hide LastRead;
    hide LastWrite;
    if turns[i].Reads? {
      if !p.upOver {
        var more := if LastRead(turns[i].read) then [] else UpFrames(id, ReadsIn(turns[i + 1..]));
        Onward(p.frames, FramesOf(id, turns[i].read), more, UpFrames(id, ReadsIn(turns)));
      }
    } else if !p.downOver {
      var over := LastWrite(turns[i].write);
      Onward(p.written, Wrote(turns[i].write), if over then [] else Written(WritesIn(turns[i + 1..])), Written(WritesIn(turns)));
      Associate<byte>([], [], []);
      Onward(p.counted, if over then [] else Wrote(turns[i].write), if over then [] else Complete(WritesIn(turns[i + 1..])),
             Complete(WritesIn(turns)));
    }
  }

  lemma FirstTurn(id: Uuid, turns: seq<BridgeTurn>)
    ensures Joined(id, turns, 0, Progress([], false, [], [], false, false))
  {
    assert turns[0..] == turns;
    hide UpFrames;
    hide Written;
    hide Complete;
    hide ShutsDown;
  }

  lemma {:induction false} LastTurn(id: Uuid, turns: seq<BridgeTurn>, p: Progress)
    requires Joined(id, turns, |turns|, p)
    ensures p.frames == UpFrames(id, ReadsIn(turns)) && p.written == Written(WritesIn(turns)) && p.counted == Complete(WritesIn(turns))
    ensures p.downOver && p.shut <==> ShutsDown(WritesIn(turns))
  {
    assert turns[|turns|..] == [];
    Associate(p.frames, [], []);
    Associate(p.written, [], []);
    Associate(p.counted, [], []);
  }

  // ---------------------------------------------------------------- what the loops send and write

  /** The upstream loop sends data frames of its own connection with what it read, in order, and at most
      one FIN, last. */
  lemma {:induction false} UpFramesInOrder(id: Uuid, turns: seq<ReadTurn>, k: nat)
    requires k < |UpFrames(id, turns)|
    ensures var f := UpFrames(id, turns)[k];
      && f.id == id && (f.kind == FRAME_DATA || (f.kind == FRAME_FIN && f.payload == [] && k == |UpFrames(id, turns)| - 1))
      && k < |turns| && (f.kind == FRAME_DATA ==> turns[k] == Data(f.payload, true))
      && (f.kind == FRAME_FIN ==> turns[k] == Eof(true))
  {
    if k > 0 {
      UpFramesInOrder(id, turns[1..], k - 1);
    }
  }

  /** What the loop sends, turn by turn, up to the first turn `n` that is its last: the data read, and the
      FIN exactly when that turn read the end of file and the carrier took it. */
  lemma {:induction false} UpFramesExactly(id: Uuid, turns: seq<ReadTurn>, n: nat)
    requires n <= |turns| && forall j :: 0 <= j < n ==> turns[j].Data? && turns[j].sent
    requires n < |turns| ==> !(turns[n].Data? && turns[n].sent)
    ensures |UpFrames(id, turns)| == if n < |turns| && turns[n] == Eof(true) then n + 1 else n
    ensures forall j :: 0 <= j < n ==> UpFrames(id, turns)[j] == CarrierFrame(2, id, turns[j].bytes)
    ensures n < |turns| && turns[n] == Eof(true) ==> UpFrames(id, turns)[n] == CarrierFrame(3, id, [])
    decreases n
  {
    if n > 0 {
      var rest := turns[1..];
      UpFramesExactly(id, rest, n - 1);
      assert UpFrames(id, turns) == [CarrierFrame(FRAME_DATA, id, turns[0].bytes)] + UpFrames(id, rest);
      forall j | 0 <= j < n ensures UpFrames(id, turns)[j] == CarrierFrame(2, id, turns[j].bytes) {
        if j > 0 {
          assert UpFrames(id, turns)[j] == UpFrames(id, rest)[j - 1] && rest[j - 1] == turns[j];
        }
      }
    }
  }

  /** The first turn that ends the loop. */
  lemma {:induction false} LastTurnOf(turns: seq<ReadTurn>) returns (n: nat)
    ensures n <= |turns| && forall j :: 0 <= j < n ==> turns[j].Data? && turns[j].sent
    ensures n < |turns| ==> !(turns[n].Data? && turns[n].sent)
  {
    n := 0;
    while n < |turns| && turns[n].Data? && turns[n].sent
      invariant n <= |turns| && forall j :: 0 <= j < n ==> turns[j].Data? && turns[j].sent
    {
      n := n + 1;
    }
  }

  /** A FIN is sent exactly for an end of file that is read after everything before it was sent, and then it is
      the last frame; given these frames, the far loop ends exactly at it and shuts its socket down. */
  lemma {:induction false} FinIffEof(id: Uuid, turns: seq<ReadTurn>, i: nat)
    ensures (i < |UpFrames(id, turns)| && UpFrames(id, turns)[i].kind == FRAME_FIN)
       <==> (i < |turns| && turns[i] == Eof(true) && forall j :: 0 <= j < i ==> turns[j].Data? && turns[j].sent)
    ensures i < |UpFrames(id, turns)| && UpFrames(id, turns)[i].kind == FRAME_FIN ==>
      && |UpFrames(id, turns)| == i + 1 && UpFrames(id, turns)[i] == CarrierFrame(FRAME_FIN, id, [])
      && var far := Arriving(UpFrames(id, turns));
         && |far| == i + 1 && LastWrite(far[i]) && (forall j :: 0 <= j < i ==> !LastWrite(far[j])) && ShutsDown(far)
  {
    var n := LastTurnOf(turns);
    UpFramesExactly(id, turns, n);
    if i < |UpFrames(id, turns)| && UpFrames(id, turns)[i].kind == FRAME_FIN {
      assert i == n;
      ArrivingAt(UpFrames(id, turns));
      DownTurnsExactly(Arriving(UpFrames(id, turns)), i);
    }
  }

  lemma {:induction false} ArrivingAt(fs: seq<CarrierFrame>)
    ensures |Arriving(fs)| == |fs|
    ensures forall k :: 0 <= k < |fs| ==> Arriving(fs)[k] == Frame(fs[k].kind, fs[k].payload, |fs[k].payload|)
  {
    if fs != [] {
      ArrivingAt(fs[1..]);
    }
  }

  /** What the downstream loop does, up to the first turn `n` that is its last: it writes the payloads of the data
      frames and of the failing one its accepted part, and shuts the socket down exactly when that turn is a FIN. */
  lemma {:induction false} DownTurnsExactly(turns: seq<WriteTurn>, n: nat)
    requires n <= |turns| && forall j :: 0 <= j < n ==> Goes(turns[j])
    requires n < |turns| ==> !Goes(turns[n])
    ensures Complete(turns) == PayloadsUpTo(turns, n)
    ensures Written(turns) == PayloadsUpTo(turns, n)
              + (if n < |turns| && turns[n].Frame? && turns[n].kind == 2 then turns[n].payload[..turns[n].accepted] else [])
    ensures ShutsDown(turns) <==> n < |turns| && turns[n].Frame? && turns[n].kind == 3
    decreases n
  {
    if n > 0 {
      var rest := turns[1..];
      forall j | 0 <= j < n - 1 ensures Goes(rest[j]) {
        assert rest[j] == turns[j + 1];
      }
      DownTurnsExactly(rest, n - 1);
      PayloadsUpToUnfold(turns, n);
      Associate(Wrote(turns[0]), PayloadsUpTo(rest, n - 1), Written(rest)[|PayloadsUpTo(rest, n - 1)|..]);
      assert Written(rest) == PayloadsUpTo(rest, n - 1) + Written(rest)[|PayloadsUpTo(rest, n - 1)|..];
    } else if turns != [] {
      assert Wrote(turns[0]) + [] == Wrote(turns[0]);
    }
  }

  /** A turn after which the downstream loop goes on: a data frame that is written as a whole, or a frame that is
      neither data nor an end. */
  predicate Goes(turn: WriteTurn) {
    turn.Frame? && turn.kind != 3 && turn.kind != 4 && (turn.kind == 2 ==> |turn.payload| <= turn.accepted)
  }

  /** The payloads of the data frames among the first `n` turns. */
  function PayloadsUpTo(turns: seq<WriteTurn>, n: nat): seq<byte>
    requires n <= |turns|
  {
    if n == 0 then []
    else PayloadsUpTo(turns, n - 1) + (if turns[n - 1].Frame? && turns[n - 1].kind == 2 then turns[n - 1].payload else [])
  }

  lemma {:induction false} PayloadsUpToUnfold(turns: seq<WriteTurn>, n: nat)
    requires 0 < n <= |turns|
    ensures PayloadsUpTo(turns, n)
         == (if turns[0].Frame? && turns[0].kind == 2 then turns[0].payload else []) + PayloadsUpTo(turns[1..], n - 1)
  {
    var first := if turns[0].Frame? && turns[0].kind == 2 then turns[0].payload else [];
    if n == 1 {
      assert PayloadsUpTo(turns, 0) == [] && PayloadsUpTo(turns[1..], 0) == [];
      assert [] + first == first && first + [] == first;
    } else {
      PayloadsUpToUnfold(turns, n - 1);
      assert turns[1..][n - 2] == turns[n - 1];
      Associate(first, PayloadsUpTo(turns[1..], n - 2),
                if turns[n - 1].Frame? && turns[n - 1].kind == 2 then turns[n - 1].payload else []);
    }
  }

  /** The bytes read from the socket and taken by the carrier. */
  function ReadBytes(turns: seq<ReadTurn>): seq<byte> {
    if turns == [] || LastRead(turns[0]) then [] else turns[0].bytes + ReadBytes(turns[1..])
  }

  /** The far loop's turns when it gets these frames and every write succeeds. */
  function Arriving(fs: seq<CarrierFrame>): seq<WriteTurn> {
    if fs == [] then [] else [Frame(fs[0].kind, fs[0].payload, |fs[0].payload|)] + Arriving(fs[1..])
  }

  /** One loop against the other: the far loop writes exactly what the near loop read and sent. */
  lemma {:induction false} FarEndWritesWhatNearEndRead(id: Uuid, turns: seq<ReadTurn>)
    ensures Written(Arriving(UpFrames(id, turns))) == ReadBytes(turns)
    ensures Pipeline.Payloads(UpFrames(id, turns)) == ReadBytes(turns)
    decreases |turns|
  {
    if turns != [] {
      var frames, rest := UpFrames(id, turns), UpFrames(id, turns[1..]);
      if LastRead(turns[0]) {
        assert frames == FramesOf(id, turns[0]);
        if frames != [] {
          Pipeline.PayloadsSnoc([], frames[0]);
          assert [] + [frames[0]] == frames && frames[1..] == [];
          assert Arriving(frames) == [Frame(FRAME_FIN, [], 0)];
        }
      } else {
        FarEndWritesWhatNearEndRead(id, turns[1..]);
        var head := CarrierFrame(FRAME_DATA, id, turns[0].bytes);
        assert frames == [head] + rest && frames[1..] == rest;
        assert Arriving(frames)[1..] == Arriving(rest);
        Pipeline.PayloadsAppend([head], rest);
        Pipeline.PayloadsSnoc([], head);
        assert [] + [head] == [head] && [] + turns[0].bytes == turns[0].bytes;
      }
    }
  }

  /** A stream of frames as the relay expects it: data of 1 byte to 32 KiB, and a FIN nowhere but last. */
  lemma {:induction false} UpFramesAreOrderly(id: Uuid, turns: seq<ReadTurn>)
    requires forall t :: t in turns && t.Data? ==> 1 <= |t.bytes| <= Pipeline.READ_BUFFER
    ensures Pipeline.Orderly(UpFrames(id, turns), id)
  {
    var frames := UpFrames(id, turns);
    forall k | 0 <= k < |frames| ensures Pipeline.GoodFrame(frames[k], id) && (frames[k].kind == FRAME_FIN ==> k == |frames| - 1) {
      UpFramesInOrder(id, turns, k);
      assert turns[k] in turns;
    }
  }
}
