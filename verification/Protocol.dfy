/** What server and agent share: carrier frames - kind byte, 16-byte stream identifier, payload - and the
    kinds of tunnels. */
module Protocol {
  import opened Bytes

  const FRAME_DATA: byte := 2
  const FRAME_FIN: byte := 3
  const FRAME_RESET: byte := 4
  const FRAME_DATAGRAM: byte := 5

  type Uuid = id: seq<byte> | |id| == 16 witness seq(16, _ => 0)

  /** The kinds of tunnels, and how the agent talks to the local target. */
  datatype Kind = Tcp | Udp | Web
  datatype Scheme = TcpScheme | UdpScheme | Http | Https

  datatype CarrierFrame = CarrierFrame(kind: byte, id: Uuid, payload: seq<byte>)

  function Encoded(f: CarrierFrame): (bs: seq<byte>) {
    [f.kind] + f.id + f.payload
  }

  /** The frame buffer is filled in three pushes. */
  method EncodeCarrierFrame(kind: byte, id: Uuid, payload: seq<byte>) returns (frame: seq<byte>)
    ensures frame == Encoded(CarrierFrame(kind, id, payload)) == [kind] + id + payload
    ensures |frame| == 17 + |payload|
  {
    frame := [];
    frame := frame + [kind];
    frame := frame + id;
    frame := frame + payload;
  }

  function DecodeCarrierFrame(frame: seq<byte>): (r: Option<CarrierFrame>)
  {
    if |frame| < 17 then None
    else Some(CarrierFrame(frame[0], frame[1..17], frame[17..]))
  }

  /** Decoding inverts encoding and accepts nothing else: a buffer decodes to `f` exactly when it is
      the encoding of `f`, and it decodes to nothing exactly when it is shorter than 17 bytes. */
  lemma DecodeInvertsEncode(frame: seq<byte>, f: CarrierFrame)
    ensures DecodeCarrierFrame(frame) == Some(f) <==> frame == Encoded(f)
    ensures DecodeCarrierFrame(frame) == None <==> |frame| < 17
  {
    if frame == Encoded(f) {
      assert frame[1..17] == f.id;
      assert frame[17..] == f.payload;
    }
    if |frame| >= 17 {
      assert frame == [frame[0]] + frame[1..17] + frame[17..];
    }
  }
}
