/** Bytes, 16-byte identifiers, and the big-endian length field that frames a direct carrier record. */
module Bytes {
  type byte = b: int | 0 <= b < 256

  datatype Option<+T> = None | Some(value: T)

  const TWO_POW_32: nat := 0x1_0000_0000

  function Pow256(width: nat): (p: nat)
    ensures p > 0
  {
    if width == 0 then 1 else 256 * Pow256(width - 1)
  }

  function BigEndian(n: nat, width: nat): (bs: seq<byte>)
    ensures |bs| == width
  {
    if width == 0 then [] else BigEndian(n / 256, width - 1) + [n % 256]
  }

  function FromBigEndian(bs: seq<byte>): nat {
    if bs == [] then 0 else FromBigEndian(bs[..|bs| - 1]) * 256 + bs[|bs| - 1]
  }

  lemma {:induction false} BigEndianRoundTrip(n: nat, width: nat)
    requires n < Pow256(width)
    ensures FromBigEndian(BigEndian(n, width)) == n
  {
    if width > 0 {
      BigEndianRoundTrip(n / 256, width - 1);
      var bs := BigEndian(n, width);
      assert bs[..|bs| - 1] == BigEndian(n / 256, width - 1);
    }
  }

  lemma {:induction false} BigEndianOnto(bs: seq<byte>)
    ensures BigEndian(FromBigEndian(bs), |bs|) == bs
    ensures FromBigEndian(bs) < Pow256(|bs|)
  {
    if bs != [] {
      BigEndianOnto(bs[..|bs| - 1]);
    }
  }

  lemma Pow256Of4()
    ensures Pow256(4) == TWO_POW_32
  {
    assert Pow256(1) == 256;
    assert Pow256(2) == 0x1_0000;
    assert Pow256(3) == 0x100_0000;
  }

  /** `n as u32` followed by `write_u32`: the cast keeps the low 32 bits, the write is big-endian. */
  function LengthField(n: nat): (bs: seq<byte>)
    ensures |bs| == 4
  {
    BigEndian(n % TWO_POW_32, 4)
  }

  /** The four bytes, the highest first, and what the reader sees: the length modulo 2^32. */
  lemma LengthFieldRoundTrip(n: nat)
    ensures FromBigEndian(LengthField(n)) == n % TWO_POW_32
    ensures var m := n % 0x1_0000_0000;
      LengthField(n) == [m / 0x100_0000, m / 0x1_0000 % 0x100, m / 0x100 % 0x100, m % 0x100]
  {
    Pow256Of4();
    BigEndianRoundTrip(n % TWO_POW_32, 4);
    FourBytes(n % TWO_POW_32);
  }

  lemma {:induction false} FourBytes(m: nat)
    requires m < 0x1_0000_0000
    ensures BigEndian(m, 4) == [m / 0x100_0000, m / 0x1_0000 % 0x100, m / 0x100 % 0x100, m % 0x100]
  {
    Quotients(m);
    var a, b, c := m / 0x100, m / 0x1_0000, m / 0x100_0000;
    assert BigEndian(c / 0x100, 0) == [];
    assert BigEndian(c, 1) == [c % 0x100];
    assert BigEndian(b, 2) == [c % 0x100] + [b % 0x100];
    assert BigEndian(a, 3) == [c % 0x100] + [b % 0x100] + [a % 0x100];
    assert BigEndian(m, 4) == [c % 0x100] + [b % 0x100] + [a % 0x100] + [m % 0x100];
  }

  lemma Quotients(m: nat)
    requires m < 0x1_0000_0000
    ensures m / 0x100 / 0x100 == m / 0x1_0000 && m / 0x1_0000 / 0x100 == m / 0x100_0000
    ensures m / 0x100_0000 % 0x100 == m / 0x100_0000
  {
  }

  lemma Associate<T>(a: seq<T>, b: seq<T>, c: seq<T>)
    ensures (a + b) + c == a + (b + c)
    ensures a + [] == a
  {
  }

  /** How many bytes some messages have together. */
  function Lengths(ds: seq<seq<byte>>): nat {
    if ds == [] then 0 else Lengths(ds[..|ds| - 1]) + |ds[|ds| - 1]|
  }

  lemma {:induction false} LengthsSnoc(ds: seq<seq<byte>>, d: seq<byte>)
    ensures Lengths(ds + [d]) == Lengths(ds) + |d|
  {
    assert (ds + [d])[..|ds|] == ds;
  }
}
