/** The agent's half of the protocol as code: routing frames to streams, opening streams and UDP sessions, and
    the bridge to the local target. */
module Agent {
  import opened Bytes
  import opened Protocol
  import opened BridgeLoops
  import Pipeline

  /** What the agent does in order: registering and removing streams, and handing messages to the carrier. */
  datatype Act = Registered(id: Uuid) | Answered(id: Uuid, accepted: bool, ticket: nat) | Sent(frame: CarrierFrame) | Removed(id: Uuid)

  /** Dialling the local target, and for an HTTPS target the local TLS handshake. */
  datatype Dialled = Refused | TlsFails | Connected

  /** The local UDP socket of a session: it could not be bound, not be connected to the target, or is ready. */
  datatype LocalSocket = Unbound | Unreachable | Reachable

  /** One turn of a UDP session: a frame from the server (and whether the local send works), a datagram from
      the local target (and whether the carrier takes it), or an error or sixty idle seconds. */
  datatype UdpTurn = FromServer(kind: byte, payload: seq<byte>, works: bool) | FromLocal(datagram: seq<byte>, taken: bool) | Fails
    | ServerClosed

  function FrameActs(fs: seq<CarrierFrame>): seq<Act> {
    if fs == [] then [] else [Sent(fs[0])] + FrameActs(fs[1..])
  }

  lemma {:induction false} FrameActsSnoc(fs: seq<CarrierFrame>, f: CarrierFrame)
    ensures FrameActs(fs + [f]) == FrameActs(fs) + [Sent(f)]
  {
    if fs == [] {
      assert fs + [f] == [f] && [f][1..] == [];
    } else {
      FrameActsSnoc(fs[1..], f);
      assert (fs + [f])[1..] == fs[1..] + [f] && (fs + [f])[0] == fs[0];
    }
  }

  // ---------------------------------------------------------------- a UDP session, turn by turn

  /** The datagrams passed to the local target, those passed to the server, and whether the session ended
      because the server closed it - the only way its stream is taken out again. */
  datatype UdpTrace = UdpTrace(toLocal: seq<seq<byte>>, toServer: seq<seq<byte>>, removed: bool)

  function UdpSession(turns: seq<UdpTurn>): UdpTrace {
    if turns == [] then UdpTrace([], [], false)
    else match turns[0]
      case FromServer(kind, payload, works) =>
        if kind != FRAME_DATAGRAM then UdpSession(turns[1..])
        else if !works then UdpTrace([], [], false)
        else var rest := UdpSession(turns[1..]); rest.(toLocal := [payload] + rest.toLocal)
      case FromLocal(datagram, taken) =>
        if !taken then UdpTrace([], [], false)
        else var rest := UdpSession(turns[1..]); rest.(toServer := [datagram] + rest.toServer)
      case Fails => UdpTrace([], [], false)
      case ServerClosed => UdpTrace([], [], true)
  }

  function DatagramFrames(id: Uuid, ds: seq<seq<byte>>): seq<CarrierFrame> {
    if ds == [] then [] else [CarrierFrame(FRAME_DATAGRAM, id, ds[0])] + DatagramFrames(id, ds[1..])
  }

  /** A UDP session passes datagrams on unchanged and in order: every local datagram becomes one datagram frame
      of this session, and every datagram frame's payload goes to the local target. */
  lemma {:induction false} UdpPassesOn(turns: seq<UdpTurn>, k: nat)
    ensures k < |UdpSession(turns).toServer| ==> exists i :: 0 <= i < |turns| && turns[i] == FromLocal(UdpSession(turns).toServer[k], true)
    ensures k < |UdpSession(turns).toLocal| ==> exists i :: 0 <= i < |turns| && turns[i] == FromServer(FRAME_DATAGRAM, UdpSession(turns).toLocal[k], true)
    decreases |turns|, k
  {
    if turns != [] && !turns[0].Fails? && !turns[0].ServerClosed? {
      UdpPassesOn(turns[1..], k);
      if k > 0 {
        UdpPassesOn(turns[1..], k - 1);
      }
      var t, rest := UdpSession(turns), UdpSession(turns[1..]);
      if k < |t.toServer| && !(k == 0 && turns[0].FromLocal?) {
        var n := if turns[0].FromLocal? then k - 1 else k;
        var i :| 0 <= i < |turns[1..]| && turns[1..][i] == FromLocal(rest.toServer[n], true);
        assert turns[i + 1] == FromLocal(t.toServer[k], true);
      }
      if k < |t.toLocal| && !(k == 0 && |t.toLocal| > |rest.toLocal|) {
        var n := if |t.toLocal| > |rest.toLocal| then k - 1 else k;
        var i :| 0 <= i < |turns[1..]| && turns[1..][i] == FromServer(FRAME_DATAGRAM, rest.toLocal[n], true);
        assert turns[i + 1] == FromServer(FRAME_DATAGRAM, t.toLocal[k], true);
      }
    }
  }

  /** Each datagram becomes one datagram frame of the session, and each frame one act. */
  lemma {:induction false} DatagramFramesAt(id: Uuid, ds: seq<seq<byte>>)
    ensures |DatagramFrames(id, ds)| == |ds| && forall k :: 0 <= k < |ds| ==> DatagramFrames(id, ds)[k] == CarrierFrame(5, id, ds[k])
  {
    if ds != [] {
      DatagramFramesAt(id, ds[1..]);
    }
  }

  lemma {:induction false} FrameActsAt(fs: seq<CarrierFrame>)
    ensures |FrameActs(fs)| == |fs| && forall k :: 0 <= k < |fs| ==> FrameActs(fs)[k] == Sent(fs[k])
  {
    if fs != [] {
      FrameActsAt(fs[1..]);
    }
  }

  /** A turn after which the session goes on. */
  predicate UdpGoes(turn: UdpTurn) {
    match turn
    case FromServer(kind, _, works) => kind == 5 ==> works
    case FromLocal(_, taken) => taken
    case _ => false
  }

  /** The payloads of the datagram frames among the first `n` turns, and the local datagrams among them. */
  function FromServerUpTo(turns: seq<UdpTurn>, n: nat): seq<seq<byte>>
    requires n <= |turns|
  {
    if n == 0 then []
    else FromServerUpTo(turns, n - 1) + (if turns[n - 1].FromServer? && turns[n - 1].kind == 5 then [turns[n - 1].payload] else [])
  }

  function FromLocalUpTo(turns: seq<UdpTurn>, n: nat): seq<seq<byte>>
    requires n <= |turns|
  {
    if n == 0 then [] else FromLocalUpTo(turns, n - 1) + (if turns[n - 1].FromLocal? then [turns[n - 1].datagram] else [])
  }

  lemma {:induction false} UpToUnfold(turns: seq<UdpTurn>, n: nat)
    requires 0 < n <= |turns|
    ensures FromServerUpTo(turns, n)
         == (if turns[0].FromServer? && turns[0].kind == 5 then [turns[0].payload] else []) + FromServerUpTo(turns[1..], n - 1)
    ensures FromLocalUpTo(turns, n) == (if turns[0].FromLocal? then [turns[0].datagram] else []) + FromLocalUpTo(turns[1..], n - 1)
  {
    var a := if turns[0].FromServer? && turns[0].kind == 5 then [turns[0].payload] else [];
    var b := if turns[0].FromLocal? then [turns[0].datagram] else [];
    if n == 1 {
      assert FromServerUpTo(turns, 0) == FromServerUpTo(turns[1..], 0) == [];
      assert FromLocalUpTo(turns, 0) == FromLocalUpTo(turns[1..], 0) == [];
      Associate(a, [], []);
      Associate(b, [], []);
    } else {
      UpToUnfold(turns, n - 1);
      assert turns[1..][n - 2] == turns[n - 1];
      Associate(a, FromServerUpTo(turns[1..], n - 2), if turns[n - 1].FromServer? && turns[n - 1].kind == 5 then [turns[n - 1].payload] else []);
      Associate(b, FromLocalUpTo(turns[1..], n - 2), if turns[n - 1].FromLocal? then [turns[n - 1].datagram] else []);
    }
  }

  /** Exactly what a session passes on: up to the first turn `n` that ends it, the payload of every datagram
      frame to the local target and every local datagram to the server; and its stream is taken out again exactly
      when that turn is the server closing it. */
  lemma {:induction false} UdpTurnsExactly(turns: seq<UdpTurn>, n: nat)
    requires n <= |turns| && (forall j :: 0 <= j < n ==> UdpGoes(turns[j])) && (n < |turns| ==> !UdpGoes(turns[n]))
    ensures UdpSession(turns).toLocal == FromServerUpTo(turns, n)
    ensures UdpSession(turns).toServer == FromLocalUpTo(turns, n)
    ensures UdpSession(turns).removed <==> n < |turns| && turns[n].ServerClosed?
    decreases n
  {
    if n > 0 {
      var rest := turns[1..];
      forall j | 0 <= j < n - 1 ensures UdpGoes(rest[j]) {
        assert rest[j] == turns[j + 1];
      }
      UdpTurnsExactly(rest, n - 1);
      UpToUnfold(turns, n);
      assert UdpGoes(turns[0]);
    }
  }

  class Agent {
    var streams: map<Uuid, seq<(byte, seq<byte>)>>
    var bytesUp: nat
    var bytesDown: nat
    var acts: seq<Act>

    constructor ()
      ensures streams == map[] && bytesUp == 0 && bytesDown == 0 && acts == []
    {
      streams, bytesUp, bytesDown, acts := map[], 0, 0, [];
    }

    /** A frame goes to the channel of its own stream, unchanged, or nowhere; `false` means that the router
        has to wait for room in that channel. */
    method RouteLocalFrame(buffer: seq<byte>) returns (done: bool)
      modifies this`streams
      ensures var f := DecodeCarrierFrame(buffer);
        if f == None || f.value.id !in old(streams) then done && streams == old(streams)
        else if |old(streams)[f.value.id]| >= 64 then !done && streams == old(streams)
        else done && streams == old(streams)[f.value.id := old(streams)[f.value.id] + [(f.value.kind, f.value.payload)]]
    {
      var f := DecodeCarrierFrame(buffer);
      done := true;
      if f.Some? && f.value.id in streams {
        if |streams[f.value.id]| >= Pipeline.STREAM_SLOTS { return false; }
        streams := streams[f.value.id := streams[f.value.id] + [(f.value.kind, f.value.payload)]];
      }
    }

    /** The upstream loop: each frame is sent before its payload is counted. */
    method Upstream(id: Uuid, turns: seq<ReadTurn>) returns (frames: seq<CarrierFrame>)
      modifies this`bytesUp, this`acts
      ensures frames == UpFrames(id, turns)
      ensures acts == old(acts) + FrameActs(frames)
      ensures bytesUp == old(bytesUp) + |Pipeline.Payloads(frames)|
    {
      frames := [];
      assert turns[0..] == turns;
      var i, over := 0, false;
      while i < |turns| && !over
        invariant 0 <= i <= |turns|
        invariant frames + (if over then [] else UpFrames(id, turns[i..])) == UpFrames(id, turns)
        invariant acts == old(acts) + FrameActs(frames)
        invariant bytesUp == old(bytesUp) + |Pipeline.Payloads(frames)|
      {
        ghost var sent := FramesOf(id, turns[i]);
        Associate(frames, sent, if LastRead(turns[i]) then [] else UpFrames(id, turns[i + 1..]));
        assert turns[i..][0] == turns[i] && turns[i..][1..] == turns[i + 1..];
        if sent != [] {
          Associate(old(acts), FrameActs(frames), [Sent(sent[0])]);
          FrameActsSnoc(frames, sent[0]);
          Pipeline.PayloadsSnoc(frames, sent[0]);
        }
        match turns[i] {
          case Data(bytes, true) =>
            acts := acts + [Sent(CarrierFrame(FRAME_DATA, id, bytes))];
            frames := frames + [CarrierFrame(FRAME_DATA, id, bytes)];
            bytesUp := bytesUp + |bytes|;
          case Eof(true) =>
            acts := acts + [Sent(CarrierFrame(FRAME_FIN, id, []))];
            frames := frames + [CarrierFrame(FRAME_FIN, id, [])];
            over := true;
          case _ =>
            over := true;
        }
        i := i + 1;
      }
    }

    /** The downstream loop: a payload counts once it has been written as a whole. */
    method Downstream(turns: seq<WriteTurn>) returns (written: seq<byte>, shut: bool)
      modifies this`bytesDown
      ensures written == Written(turns) && shut == ShutsDown(turns)
      ensures bytesDown == old(bytesDown) + |Complete(turns)|
    {
      hide Written;
      hide Complete;
      hide ShutsDown;
      written, shut := [], false;
      assert turns[0..] == turns;
      NothingWritten();
      var i, over := 0, false;
      while i < |turns| && !over
        invariant 0 <= i <= |turns|
        invariant written + (if over then [] else Written(turns[i..])) == Written(turns)
        invariant ShutsDown(turns) <==> if over then shut else ShutsDown(turns[i..])
        invariant !over ==> !shut
        invariant bytesDown + (if over then 0 else |Complete(turns[i..])|) == old(bytesDown) + |Complete(turns)|
      {
        var turn := turns[i];
        WriteUnfold(turns, i);
        Associate(written, Wrote(turn), if LastWrite(turn) then [] else Written(turns[i + 1..]));
        if turn.Frame? && turn.kind == FRAME_DATA {
          if turn.accepted < |turn.payload| {
            written := written + turn.payload[..turn.accepted];
            over := true;
          } else {
            written := written + turn.payload;
            bytesDown := bytesDown + |turn.payload|;
          }
        } else {
          over := !turn.Frame? || turn.kind == FRAME_FIN || turn.kind == FRAME_RESET;
          shut := turn.Frame? && turn.kind == FRAME_FIN;
        }
        i := i + 1;
      }
      assert !over ==> turns[i..] == [];
      assert written + [] == written;
    }

    /** Opening a stream: the stream is registered before the acceptance is sent, and data only afterwards;
        afterwards the agent's other streams are as before and this one is gone, unless the acceptance could
        not be sent or the local TLS handshake failed, which leaves it registered. */
    method OpenMultiplexedStream(id: Uuid, ticket: nat, dialled: Dialled, answers: bool, ups: seq<ReadTurn>, downs: seq<WriteTurn>)
      returns (frames: seq<CarrierFrame>, written: seq<byte>, shut: bool)
      requires id !in streams
      modifies this
      ensures dialled == Refused ==> acts == old(acts) + (if answers then [Answered(id, false, ticket)] else [])
      ensures dialled != Refused && !answers ==> acts == old(acts) + [Registered(id)]
      ensures dialled == TlsFails && answers ==> acts == old(acts) + [Registered(id), Answered(id, true, ticket)]
      ensures dialled == Connected && answers ==>
                acts == old(acts) + [Registered(id), Answered(id, true, ticket)] + FrameActs(frames) + [Removed(id)]
      ensures frames == (if dialled == Connected && answers then UpFrames(id, ups) else [])
      ensures written == (if dialled == Connected && answers then Written(downs) else [])
      ensures shut <==> dialled == Connected && answers && ShutsDown(downs)
      ensures streams == if dialled == TlsFails || (dialled == Connected && !answers) then old(streams)[id := []] else old(streams)
      ensures bytesUp == old(bytesUp) + |Pipeline.Payloads(frames)|
      ensures bytesDown == old(bytesDown) + if dialled == Connected && answers then |Complete(downs)| else 0
    {
      hide UpFrames;
      hide Written;
      hide Complete;
      hide ShutsDown;
      frames, written, shut := [], [], false;
      if dialled == Refused {
        if answers {
          acts := acts + [Answered(id, false, ticket)];
        }
        return;
      }
      streams := streams[id := []];
      acts := acts + [Registered(id)];
      if !answers { return; }
      acts := acts + [Answered(id, true, ticket)];
      assert acts == old(acts) + [Registered(id), Answered(id, true, ticket)];
      if dialled == TlsFails { return; }
      frames := Upstream(id, ups);
      written, shut := Downstream(downs);
      streams := streams - {id};
      acts := acts + [Removed(id)];
    }

    /** A UDP session: its stream is taken out again exactly when the server's side closed it; any error, an
        acceptance that could not be sent among them, and the idle timeout return early and leave it. Without
        a local socket there is no answer at all. */
    method OpenUdpSession(id: Uuid, ticket: nat, local: LocalSocket, answers: bool, turns: seq<UdpTurn>) returns (trace: UdpTrace)
      requires id !in streams
      modifies this
      ensures local == Unbound ==> acts == old(acts) && streams == old(streams)
      ensures local == Unreachable ==>
        acts == old(acts) + (if answers then [Answered(id, false, ticket)] else []) && streams == old(streams)
      ensures local == Reachable && !answers ==> acts == old(acts) + [Registered(id)] && streams == old(streams)[id := []]
      ensures trace == if local == Reachable && answers then UdpSession(turns) else UdpTrace([], [], false)
      ensures local == Reachable && answers ==>
        && acts == old(acts) + [Registered(id), Answered(id, true, ticket)] + FrameActs(DatagramFrames(id, trace.toServer))
                   + (if trace.removed then [Removed(id)] else [])
        && streams == if trace.removed then old(streams) else old(streams)[id := []]
      ensures bytesUp == old(bytesUp) + Lengths(trace.toServer) && bytesDown == old(bytesDown) + Lengths(trace.toLocal)
    {
      trace := UdpTrace([], [], false);
      if local == Unbound { return; }
      if local == Unreachable {
        if answers {
          acts := acts + [Answered(id, false, ticket)];
        }
        return;
      }
      streams := streams[id := []];
      acts := acts + [Registered(id)];
      if !answers { return; }
      acts := acts + [Answered(id, true, ticket)];
      assert acts == old(acts) + [Registered(id), Answered(id, true, ticket)];
      trace := ServeUdp(id, turns);
      if trace.removed {
        streams := streams - {id};
        acts := acts + [Removed(id)];
      }
    }

    method ServeUdp(id: Uuid, turns: seq<UdpTurn>) returns (trace: UdpTrace)
      modifies this`acts, this`bytesUp, this`bytesDown
      ensures trace == UdpSession(turns)
      ensures acts == old(acts) + FrameActs(DatagramFrames(id, trace.toServer))
      ensures bytesUp == old(bytesUp) + Lengths(trace.toServer) && bytesDown == old(bytesDown) + Lengths(trace.toLocal)
    {
      trace := UdpTrace([], [], false);
      assert FrameActs(DatagramFrames(id, [])) == [] && Lengths([]) == 0;
      assert Prepended(trace, UdpSession(turns)) == UdpSession(turns) && turns[0..] == turns;
      assert UdpSession([]) == UdpTrace([], [], false);
      hide FrameActs;
      hide DatagramFrames;
      hide Lengths;
      hide UdpSession;
      var i := 0;
      while i < |turns|
        invariant 0 <= i <= |turns| && !trace.removed
        invariant Prepended(trace, UdpSession(turns[i..])) == UdpSession(turns)
        invariant acts == old(acts) + FrameActs(DatagramFrames(id, trace.toServer))
        invariant bytesUp == old(bytesUp) + Lengths(trace.toServer) && bytesDown == old(bytesDown) + Lengths(trace.toLocal)
      {
        UdpUnfold(trace, turns[i..]);
        hide Prepended;
        assert turns[i..][0] == turns[i] && turns[i..][1..] == turns[i + 1..];
        match turns[i] {
          case FromServer(kind, payload, works) =>
            if kind == FRAME_DATAGRAM {
              if !works { return; }
              LengthsSnoc(trace.toLocal, payload);
              trace := trace.(toLocal := trace.toLocal + [payload]);
              bytesDown := bytesDown + |payload|;
            }
          case FromLocal(datagram, taken) =>
            if !taken { return; }
            Associate(old(acts), FrameActs(DatagramFrames(id, trace.toServer)), [Sent(CarrierFrame(FRAME_DATAGRAM, id, datagram))]);
            MoreDatagrams(id, trace.toServer, datagram);
            LengthsSnoc(trace.toServer, datagram);
            acts := acts + [Sent(CarrierFrame(FRAME_DATAGRAM, id, datagram))];
            trace := trace.(toServer := trace.toServer + [datagram]);
            bytesUp := bytesUp + |datagram|;
          case Fails =>
            return;
          case ServerClosed =>
            return trace.(removed := true);
        }
        i := i + 1;
      }
    }
  }

  function Prepended(before: UdpTrace, t: UdpTrace): UdpTrace {
    UdpTrace(before.toLocal + t.toLocal, before.toServer + t.toServer, t.removed)
  }

  lemma {:induction false} UdpUnfold(before: UdpTrace, turns: seq<UdpTurn>)
    requires turns != [] && !before.removed
    ensures Prepended(before, UdpSession(turns)) ==
      match turns[0]
      case FromServer(kind, payload, works) =>
        if kind != FRAME_DATAGRAM then Prepended(before, UdpSession(turns[1..]))
        else if !works then before
        else Prepended(before.(toLocal := before.toLocal + [payload]), UdpSession(turns[1..]))
      case FromLocal(datagram, taken) =>
        if !taken then before else Prepended(before.(toServer := before.toServer + [datagram]), UdpSession(turns[1..]))
      case Fails => before
      case ServerClosed => before.(removed := true)
  {
    UdpStep(turns);
    hide UdpSession;
    var rest := UdpSession(turns[1..]);
    Associate(before.toLocal, if turns[0].FromServer? then [turns[0].payload] else [], rest.toLocal);
    Associate(before.toServer, if turns[0].FromLocal? then [turns[0].datagram] else [], rest.toServer);
  }

  lemma {:induction false} UdpStep(turns: seq<UdpTurn>)
    requires turns != []
    ensures var rest := UdpSession(turns[1..]);
      UdpSession(turns) ==
      match turns[0]
      case FromServer(kind, payload, works) =>
        if kind != FRAME_DATAGRAM then rest
        else if works then rest.(toLocal := [payload] + rest.toLocal)
        else UdpTrace([], [], false)
      case FromLocal(datagram, taken) =>
        if taken then rest.(toServer := [datagram] + rest.toServer) else UdpTrace([], [], false)
      case Fails => UdpTrace([], [], false)
      case ServerClosed => UdpTrace([], [], true)
  {
  }

  lemma {:induction false} MoreDatagrams(id: Uuid, ds: seq<seq<byte>>, d: seq<byte>)
    ensures DatagramFrames(id, ds + [d]) == DatagramFrames(id, ds) + [CarrierFrame(FRAME_DATAGRAM, id, d)]
    ensures FrameActs(DatagramFrames(id, ds + [d])) == FrameActs(DatagramFrames(id, ds)) + [Sent(CarrierFrame(FRAME_DATAGRAM, id, d))]
    decreases |ds|
  {
    if ds == [] {
      assert ds + [d] == [d] && [d][1..] == [];
    } else {
      MoreDatagrams(id, ds[1..], d);
      assert (ds + [d])[1..] == ds[1..] + [d] && (ds + [d])[0] == ds[0];
    }
    FrameActsSnoc(DatagramFrames(id, ds), CarrierFrame(FRAME_DATAGRAM, id, d));
  }
}
