/** Direct carrier records (QUIC and KCP): kind byte, big-endian 32-bit length, payload.
    `WriteRecord` and `ReadRecord` give the byte format; `ByteChannel` runs the writer and the reader
    loop over it; `Reader` adds the desktop reader's cancellation. */
module Records {
  import opened Bytes
  import opened Protocol

  const CONTROL: byte := 0
  const BINARY: byte := 1
  const MAX_RECORD: nat := 16 * 1024 * 1024
  const HEADER: nat := 5

  datatype Record = Record(kind: byte, payload: seq<byte>)

  datatype ReadResult = Got(record: Record, rest: seq<byte>) | NeedMore | TooLarge

  function WriteRecord(r: Record): (bs: seq<byte>)
    ensures |bs| == HEADER + |r.payload|
  {
    [r.kind] + LengthField(|r.payload|) + r.payload
  }

  function ReadRecord(bs: seq<byte>): (res: ReadResult)
    ensures res.Got? ==> |bs| == HEADER + |res.record.payload| + |res.rest| && |res.record.payload| <= MAX_RECORD
  {
    if |bs| < HEADER then NeedMore
    else
      var length := FromBigEndian(bs[1..5]);
      if length > MAX_RECORD then TooLarge
      else if |bs| < HEADER + length then NeedMore
      else Got(Record(bs[0], bs[HEADER..HEADER + length]), bs[HEADER + length..])
  }

  ghost predicate Fits(rs: seq<Record>) {
    forall r :: r in rs ==> |r.payload| <= MAX_RECORD
  }

  function Serialize(rs: seq<Record>): seq<byte> {
    if rs == [] then [] else WriteRecord(rs[0]) + Serialize(rs[1..])
  }

  /** The reader loop: records until the input ends (`rest` holds a partial record) or a record
      announces more than the maximum. */
  datatype Parsed = Parsed(records: seq<Record>, rest: seq<byte>, oversized: bool)

  function Parse(bs: seq<byte>): Parsed
    decreases |bs|
  {
    match ReadRecord(bs)
    case NeedMore => Parsed([], bs, false)
    case TooLarge => Parsed([], bs, true)
    case Got(r, rest) => var p := Parse(rest); p.(records := [r] + p.records)
  }

  // ---------------------------------------------------------------- one record

  /** A written record is read back, with the rest of the stream untouched, exactly when it fits:
      the writer checks nothing, so an oversized payload is rejected by the reader, and one whose
      length wraps past 2^32 is read as a different record. */
  lemma RecordRoundTrip(r: Record, tail: seq<byte>)
    ensures ReadRecord(WriteRecord(r) + tail) == Got(r, tail) <==> |r.payload| <= 16 * 1024 * 1024
  {
    var bs := WriteRecord(r) + tail;
    assert bs[1..5] == LengthField(|r.payload|);
    LengthFieldRoundTrip(|r.payload|);
    if |r.payload| <= MAX_RECORD {
      assert bs[HEADER..HEADER + |r.payload|] == r.payload;
      assert bs[HEADER + |r.payload|..] == tail;
    }
  }

  /** Whatever the reader accepts is the writer's own bytes for that record. */
  lemma ReadIsWrite(bs: seq<byte>)
    requires ReadRecord(bs).Got?
    ensures bs == WriteRecord(ReadRecord(bs).record) + ReadRecord(bs).rest
  {
    var Got(r, rest) := ReadRecord(bs);
    var n := FromBigEndian(bs[1..5]);
    Pow256Of4();
    BigEndianOnto(bs[1..5]);
    assert LengthField(n) == bs[1..5];
    assert bs == [bs[0]] + bs[1..5] + bs[HEADER..HEADER + n] + bs[HEADER + n..];
  }

  /** More bytes never change a record already complete. */
  lemma ReadExtends(bs: seq<byte>, more: seq<byte>)
    requires ReadRecord(bs).Got?
    ensures ReadRecord(bs + more) == Got(ReadRecord(bs).record, ReadRecord(bs).rest + more)
  {
    var Got(r, rest) := ReadRecord(bs);
    ReadIsWrite(bs);
    assert bs + more == WriteRecord(r) + (rest + more);
    RecordRoundTrip(r, rest + more);
  }

  // ---------------------------------------------------------------- a stream of records

  lemma {:induction false} ParseUnfold(bs: seq<byte>, r: Record, rest: seq<byte>)
    requires ReadRecord(bs) == Got(r, rest)
    ensures Parse(bs) == Parse(rest).(records := [r] + Parse(rest).records)
  {
  }

  lemma {:induction false} SerializeHead(rs: seq<Record>, tail: seq<byte>)
    requires rs != []
    ensures Serialize(rs) + tail == WriteRecord(rs[0]) + (Serialize(rs[1..]) + tail)
  {
  }

  /** `bs` starts with exactly the records `rs`, and the loop then continues on `tail`. */
  ghost predicate StartsWith(bs: seq<byte>, rs: seq<Record>, tail: seq<byte>) {
    && Parse(bs).records == rs + Parse(tail).records
    && Parse(bs).rest == Parse(tail).rest
    && Parse(bs).oversized == Parse(tail).oversized
  }

  lemma StartsWithOneMore(r: Record, more: seq<byte>, rs: seq<Record>, tail: seq<byte>)
    requires |r.payload| <= MAX_RECORD && StartsWith(more, rs, tail)
    ensures StartsWith(WriteRecord(r) + more, [r] + rs, tail)
  {
    RecordRoundTrip(r, more);
    ParseUnfold(WriteRecord(r) + more, r, more);
    assert [r] + (rs + Parse(tail).records) == ([r] + rs) + Parse(tail).records;
  }

  lemma {:induction false} ParseSerialized(rs: seq<Record>, tail: seq<byte>)
    requires Fits(rs)
    ensures StartsWith(Serialize(rs) + tail, rs, tail)
  {
    if rs == [] {
      assert Serialize(rs) + tail == tail;
      assert StartsWith(tail, [], tail);
    } else {
      SerializeHead(rs, tail);
      ParseSerialized(rs[1..], tail);
      StartsWithOneMore(rs[0], Serialize(rs[1..]) + tail, rs[1..], tail);
      assert rs == [rs[0]] + rs[1..];
    }
  }

  lemma {:induction false} SerializeAppend(a: seq<Record>, b: seq<Record>)
    ensures Serialize(a + b) == Serialize(a) + Serialize(b)
  {
    if a == [] {
      assert a + b == b;
    } else {
      SerializeAppend(a[1..], b);
      assert (a + b)[1..] == a[1..] + b;
      assert (a + b)[0] == a[0];
    }
  }

  lemma {:induction false} SerializeSnoc(a: seq<Record>, r: Record)
    ensures Serialize(a + [r]) == Serialize(a) + WriteRecord(r)
  {
    SerializeAppend(a, [r]);
    assert [r][1..] == [];
    assert Serialize([r]) == WriteRecord(r) + [];
  }

  lemma {:induction false} ParseIsSerialize(bs: seq<byte>)
    ensures bs == Serialize(Parse(bs).records) + Parse(bs).rest
    ensures Fits(Parse(bs).records)
    decreases |bs|
  {
    hide ReadRecord;
    hide WriteRecord;
    if ReadRecord(bs).Got? {
      var Got(r, rest) := ReadRecord(bs);
      ReadIsWrite(bs);
      ParseIsSerialize(rest);
      var p := Parse(rest);
      assert ([r] + p.records)[1..] == p.records;
    }
  }

  /** The stream of written records parses to exactly those records, with nothing left over. */
  lemma {:induction false} StreamRoundTrip(rs: seq<Record>)
    requires Fits(rs)
    ensures Parse(Serialize(rs)) == Parsed(rs, [], false)
  {
    ParseSerialized(rs, []);
    assert Serialize(rs) + [] == Serialize(rs);
    assert rs + [] == rs;
  }

  /** `n` bytes of the stream hold exactly its first `k` records and a part of the next one. */
  ghost predicate CutsAfter(rs: seq<Record>, n: nat, k: nat) {
    && k <= |rs|
    && |Serialize(rs[..k])| <= n <= |Serialize(rs)|
    && (k < |rs| ==> n < |Serialize(rs[..k + 1])|)
  }

  lemma {:induction false} CutInsideFirst(rs: seq<Record>, n: nat)
    requires Fits(rs) && rs != [] && n < |WriteRecord(rs[0])|
    ensures CutsAfter(rs, n, 0)
    ensures Parse(Serialize(rs)[..n]) == Parsed([], Serialize(rs)[..n], false)
  {
    SerializeTake(rs, 0);
    assert Serialize(rs)[..n] == WriteRecord(rs[0])[..n];
    PartialRecord(rs[0], n);
  }

  lemma PartialRecord(r: Record, n: nat)
    requires |r.payload| <= MAX_RECORD && n < |WriteRecord(r)|
    ensures ReadRecord(WriteRecord(r)[..n]) == NeedMore
  {
    if n >= HEADER {
      assert WriteRecord(r)[..n][1..5] == LengthField(|r.payload|);
      LengthFieldRoundTrip(|r.payload|);
    }
  }

  lemma SerializeTake(rs: seq<Record>, k: nat)
    requires rs != [] && k < |rs|
    ensures Serialize(rs[..k + 1]) == WriteRecord(rs[0]) + Serialize(rs[1..][..k])
  {
    assert rs[..k + 1][1..] == rs[1..][..k];
  }

  lemma CutOneMore(rs: seq<Record>, n: nat, k: nat)
    requires rs != [] && n >= |WriteRecord(rs[0])| && CutsAfter(rs[1..], n - |WriteRecord(rs[0])|, k)
    ensures CutsAfter(rs, n, k + 1)
  {
    SerializeTake(rs, k);
    if k + 1 < |rs| {
      SerializeTake(rs, k + 1);
    }
  }

  /** Cutting the stream after `n` bytes yields exactly the records that lie wholly inside the cut; the
      reader keeps the partial one as unread input and never invents or rejects a record. */
  lemma {:induction false} TruncationYieldsPrefix(rs: seq<Record>, n: nat) returns (k: nat)
    requires Fits(rs) && n <= |Serialize(rs)|
    ensures CutsAfter(rs, n, k)
    ensures var p := Parse(Serialize(rs)[..n]); p.records == rs[..k] && !p.oversized
    ensures |Parse(Serialize(rs)[..n]).rest| == n - |Serialize(rs[..k])|
  {
    if rs == [] {
      k := 0;
      StreamRoundTrip(rs);
    } else if n < |WriteRecord(rs[0])| {
      k := 0;
      CutInsideFirst(rs, n);
    } else {
      var m := n - |WriteRecord(rs[0])|;
      var k' := TruncationYieldsPrefix(rs[1..], m);
      k := k' + 1;
      CutOneMore(rs, n, k');
      TruncationStep(rs, n, k');
    }
  }

  lemma TruncationStep(rs: seq<Record>, n: nat, k: nat)
    requires rs != [] && |rs[0].payload| <= MAX_RECORD && k < |rs|
    requires |WriteRecord(rs[0])| <= n <= |Serialize(rs)|
    requires var p := Parse(Serialize(rs[1..])[..n - |WriteRecord(rs[0])|]);
             p.records == rs[1..][..k] && !p.oversized
             && |p.rest| == n - |WriteRecord(rs[0])| - |Serialize(rs[1..][..k])|
    ensures var p := Parse(Serialize(rs)[..n]);
            p.records == rs[..k + 1] && !p.oversized && |p.rest| == n - |Serialize(rs[..k + 1])|
  {
    var w, m := WriteRecord(rs[0]), n - |WriteRecord(rs[0])|;
    var inner := Serialize(rs[1..])[..m];
    assert Serialize(rs)[..n] == w + inner;
    RecordRoundTrip(rs[0], inner);
    ParseUnfold(w + inner, rs[0], inner);
    SerializeTake(rs, k);
    assert rs[..k + 1] == [rs[0]] + rs[1..][..k];
  }

  /** Frames carried as binary records. */
  function FrameRecords(fs: seq<CarrierFrame>): (rs: seq<Record>)
    ensures |rs| == |fs|
  {
    seq(|fs|, i requires 0 <= i < |fs| => Record(BINARY, Encoded(fs[i])))
  }

  /** Frame encoding inside record framing: every (kind, id, payload) comes back, in order. */
  lemma FramesSurviveTheCarrier(fs: seq<CarrierFrame>)
    requires forall f :: f in fs ==> 17 + |f.payload| <= MAX_RECORD
    ensures var p := Parse(Serialize(FrameRecords(fs)));
            && p.rest == [] && !p.oversized && |p.records| == |fs|
            && forall i :: 0 <= i < |fs| ==>
                 p.records[i].kind == 1 && DecodeCarrierFrame(p.records[i].payload) == Some(fs[i])
  {
    var rs := FrameRecords(fs);
    forall r | r in rs ensures |r.payload| <= MAX_RECORD {
      var i :| 0 <= i < |rs| && rs[i] == r;
      assert fs[i] in fs;
    }
    StreamRoundTrip(rs);
    forall i | 0 <= i < |fs| ensures DecodeCarrierFrame(rs[i].payload) == Some(fs[i]) {
      DecodeInvertsEncode(rs[i].payload, fs[i]);
    }
  }

  // ---------------------------------------------------------------- writer and reader tasks

  /** One direction of a direct carrier, as the writer task fills it and the reader task drains it. */
  class ByteChannel {
    var bytes: seq<byte>

    constructor ()
      ensures bytes == []
    {
      bytes := [];
    }

    method WriteOne(r: Record)
      modifies this
      ensures bytes == old(bytes) + WriteRecord(r) == old(bytes) + ([r.kind] + LengthField(|r.payload|) + r.payload)
    {
      bytes := bytes + [r.kind];
      bytes := bytes + LengthField(|r.payload|);
      bytes := bytes + r.payload;
      assert bytes == old(bytes) + WriteRecord(r);
    }

    method WriteEach(rs: seq<Record>)
      modifies this
      ensures bytes == old(bytes) + Serialize(rs)
    {
      for i := 0 to |rs|
        invariant bytes == old(bytes) + Serialize(rs[..i])
      {
        WriteOne(rs[i]);
        assert rs[..i + 1] == rs[..i] + [rs[i]];
        SerializeSnoc(rs[..i], rs[i]);
        assert bytes == old(bytes) + (Serialize(rs[..i]) + WriteRecord(rs[i]));
      }
      assert rs[..|rs|] == rs;
    }

    /** `read_u8`, `read_u32`, the size check, `read_exact`. A failed read may have consumed input;
        the caller stops, so only the outcome matters then. */
    method ReadOne() returns (r: Option<Record>)
      modifies this
      ensures r.Some? <==> ReadRecord(old(bytes)).Got?
      ensures r.Some? ==> ReadRecord(old(bytes)) == Got(r.value, bytes)
    {
      if |bytes| < 1 { return None; }
      var kind := bytes[0];
      bytes := bytes[1..];
      if |bytes| < 4 { return None; }
      var length := FromBigEndian(bytes[..4]);
      assert old(bytes)[1..5] == bytes[..4];
      bytes := bytes[4..];
      if length > MAX_RECORD { return None; }
      if |bytes| < length { return None; }
      r := Some(Record(kind, bytes[..length]));
      assert bytes[..length] == old(bytes)[HEADER..HEADER + length];
      assert bytes[length..] == old(bytes)[HEADER + length..];
      bytes := bytes[length..];
    }

    /** The receive loop: it stops at the first record it cannot read. */
    method ReadUntilError() returns (rs: seq<Record>)
      modifies this
      ensures rs == Parse(old(bytes)).records
    {
      hide ReadRecord;
      rs := [];
      ghost var left := bytes;
      while true
        invariant left == bytes
        invariant Parse(old(bytes)).records == rs + Parse(bytes).records
        decreases |bytes|
      {
        var r := ReadOne();
        if r.None? {
          assert Parse(left).records == [];
          return;
        }
        ParseUnfold(left, r.value, bytes);
        assert rs + ([r.value] + Parse(bytes).records) == (rs + [r.value]) + Parse(bytes).records;
        rs := rs + [r.value];
        left := bytes;
      }
    }
  }

  // ---------------------------------------------------------------- cancellation of a read

  /** The desktop agent reads records inside a `select!` together with a 20-second heartbeat (and, on
      QUIC, incoming datagrams). When another branch fires, the read in progress is dropped together
      with the bytes it has already taken. `got` is that partial record. */
  datatype Reader = Reader(net: seq<byte>, got: seq<byte>, delivered: seq<Record>, lost: nat)

  datatype ReaderStep = Pull | Deliver | Cancel

  predicate ReaderEnabled(s: Reader, step: ReaderStep) {
    match step
    case Pull => s.net != [] && ReadRecord(s.got) == NeedMore
    case Deliver => ReadRecord(s.got).Got?
    case Cancel => ReadRecord(s.got) == NeedMore
  }

  function ReaderApply(s: Reader, step: ReaderStep): Reader
    requires ReaderEnabled(s, step)
  {
    match step
    case Pull => s.(net := s.net[1..], got := s.got + [s.net[0]])
    case Deliver =>
      var Got(r, rest) := ReadRecord(s.got);
      s.(got := rest, delivered := s.delivered + [r])
    case Cancel => s.(got := [], lost := s.lost + |s.got|)
  }

  ghost predicate ReaderRun(s: Reader, steps: seq<ReaderStep>, t: Reader)
    decreases |steps|
  {
    if steps == [] then s == t
    else ReaderEnabled(s, steps[0]) && ReaderRun(ReaderApply(s, steps[0]), steps[1..], t)
  }

  /** What the reader will have delivered in the end if no further read is cancelled. */
  ghost function Outlook(s: Reader): seq<Record> {
    s.delivered + Parse(s.got + s.net).records
  }

  lemma ReaderStepConserves(s: Reader, step: ReaderStep)
    requires ReaderEnabled(s, step)
    ensures var t := ReaderApply(s, step);
            |Serialize(t.delivered)| + |t.got| + |t.net| + t.lost
            == |Serialize(s.delivered)| + |s.got| + |s.net| + s.lost
    ensures ReaderApply(s, step).lost == s.lost ==> Outlook(ReaderApply(s, step)) == Outlook(s)
  {
    hide ReadRecord;
    hide WriteRecord;
    var t := ReaderApply(s, step);
    match step
    case Pull =>
      assert t.got + t.net == s.got + s.net;
    case Deliver =>
      var Got(r, rest) := ReadRecord(s.got);
      ReadExtends(s.got, s.net);
      ParseUnfold(s.got + s.net, r, rest + s.net);
      SerializeSnoc(s.delivered, r);
      assert s.delivered + ([r] + Parse(rest + s.net).records) == t.delivered + Parse(rest + s.net).records;
    case Cancel =>
      if t.lost == s.lost {
        assert s.got == [];
      }
  }

  lemma {:induction false} ReaderRunConserves(s: Reader, steps: seq<ReaderStep>, t: Reader)
    requires ReaderRun(s, steps, t)
    ensures |Serialize(t.delivered)| + |t.got| + |t.net| + t.lost
         == |Serialize(s.delivered)| + |s.got| + |s.net| + s.lost
    ensures s.lost <= t.lost
    ensures t.lost == s.lost ==> Outlook(t) == Outlook(s)
    decreases |steps|
  {
    if steps != [] {
      ReaderStepConserves(s, steps[0]);
      ReaderRunConserves(ReaderApply(s, steps[0]), steps[1..], t);
    }
  }

  /** The record stream survives cancellation exactly when every cancellation fell between records:
      after any run, the records delivered together with those still to come are the records sent if
      and only if no cancelled read had already taken a byte. */
  lemma {:induction false} SyncIffNothingLost(rs: seq<Record>, steps: seq<ReaderStep>, t: Reader)
    requires Fits(rs)
    requires ReaderRun(Reader(Serialize(rs), [], [], 0), steps, t)
    ensures Outlook(t) == rs <==> t.lost == 0
  {
    var s := Reader(Serialize(rs), [], [], 0);
    ReaderRunConserves(s, steps, t);
    StreamRoundTrip(rs);
    assert s.got + s.net == Serialize(rs);
    assert Outlook(s) == rs;
    if Outlook(t) == rs {
      var ahead := Parse(t.got + t.net);
      ParseIsSerialize(t.got + t.net);
      SerializeAppend(t.delivered, ahead.records);
      assert |Serialize(rs)| == |Serialize(t.delivered)| + |Serialize(ahead.records)|;
    }
  }

  function Pulls(k: nat): (steps: seq<ReaderStep>)
    ensures |steps| == k
  {
    if k == 0 then [] else [Pull] + Pulls(k - 1)
  }

  /** `k` bytes into a record of length `n` that starts the input, the reader still needs more. */
  lemma {:induction false} PullsRun(r: Record, tail: seq<byte>, j: nat, k: nat, delivered: seq<Record>)
    requires |r.payload| <= MAX_RECORD && j + k < |WriteRecord(r)|
    ensures var bs := WriteRecord(r) + tail;
            ReaderRun(Reader(bs[j..], bs[..j], delivered, 0), Pulls(k) + [Cancel], Reader(bs[j + k..], [], delivered, j + k))
    decreases k
  {
    var w, bs := WriteRecord(r), WriteRecord(r) + tail;
    var s := Reader(bs[j..], bs[..j], delivered, 0);
    assert bs[..j] == w[..j];
    PartialRecord(r, j);
    if k == 0 {
      assert Pulls(0) + [Cancel] == [Cancel] && [Cancel][1..] == [];
      assert ReaderRun(ReaderApply(s, Cancel), [], Reader(bs[j..], [], delivered, j));
    } else {
      PullsRun(r, tail, j + 1, k - 1, delivered);
      assert bs[j..][1..] == bs[j + 1..] && bs[..j] + [bs[j]] == bs[..j + 1];
      assert (Pulls(k) + [Cancel])[1..] == Pulls(k - 1) + [Cancel] && (Pulls(k) + [Cancel])[0] == Pull;
    }
  }

  /** One heartbeat in the middle of a record is enough to desynchronise the reader: wherever the cut falls
      in the first record still to be read, the bytes taken are lost, and what the reader delivers from then
      on is not what was sent. */
  lemma {:induction false} HeartbeatMidRecordDesynchronises(rs: seq<Record>, k: nat)
    requires Fits(rs) && rs != [] && 0 < k < |WriteRecord(rs[0])|
    ensures exists t :: ReaderRun(Reader(Serialize(rs), [], [], 0), Pulls(k) + [Cancel], t) && t.lost == k && Outlook(t) != rs
  {
    var bs := Serialize(rs);
    assert rs[0] in rs;
    PullsRun(rs[0], Serialize(rs[1..]), 0, k, []);
    assert bs[0..] == bs && bs[..0] == [];
    var t := Reader(bs[k..], [], [], k);
    SyncIffNothingLost(rs, Pulls(k) + [Cancel], t);
  }

  /** In particular when the record carries a frame, of any kind and length the relay sends. */
  lemma {:induction false} HeartbeatMidFrameDesynchronises(f: CarrierFrame, k: nat)
    requires |f.payload| <= 0x1_0000 && 0 < k < HEADER + 17 + |f.payload|
    ensures exists t :: ReaderRun(Reader(WriteRecord(Record(BINARY, Encoded(f))), [], [], 0), Pulls(k) + [Cancel], t)
                        && t.lost == k && Outlook(t) != [Record(BINARY, Encoded(f))]
  {
    var rs := [Record(BINARY, Encoded(f))];
    assert |Encoded(f)| == 17 + |f.payload|;
    assert Serialize(rs[1..]) == [] && Serialize(rs) == WriteRecord(rs[0]) + [];
    assert Serialize(rs) == WriteRecord(rs[0]);
    HeartbeatMidRecordDesynchronises(rs, k);
  }
}
