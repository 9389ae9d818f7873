/** Bytes and the little-endian encoding of lengths. */
module Octets {

  type Byte = b: int | 0 <= b < 256

  type Bytes = seq<Byte>

  const WORD: nat := 0x1_0000_0000_0000_0000

  /** `n` as `width` bytes, least significant first. */
  function LittleEndian(n: nat, width: nat): (r: Bytes)
    ensures |r| == width
  {
    if width == 0 then [] else [n % 256] + LittleEndian(n / 256, width - 1)
  }

  function FromLittleEndian(bytes: Bytes): nat {
    if bytes == [] then 0 else bytes[0] + 256 * FromLittleEndian(bytes[1..])
  }

  function Bound(width: nat): (r: nat)
    ensures r > 0
  {
    if width == 0 then 1 else 256 * Bound(width - 1)
  }

  lemma {:induction false} DecodeEncode(n: nat, width: nat)
    requires n < Bound(width)
    ensures FromLittleEndian(LittleEndian(n, width)) == n
  {
    if width > 0 {
      DecodeEncode(n / 256, width - 1);
      assert LittleEndian(n, width)[1..] == LittleEndian(n / 256, width - 1);
    }
  }

  lemma {:induction false} EncodeDecode(bytes: Bytes)
    ensures FromLittleEndian(bytes) < Bound(|bytes|)
    ensures LittleEndian(FromLittleEndian(bytes), |bytes|) == bytes
  {
    if bytes != [] {
      EncodeDecode(bytes[1..]);
      var rest := FromLittleEndian(bytes[1..]);
      assert (bytes[0] + 256 * rest) % 256 == bytes[0];
      assert (bytes[0] + 256 * rest) / 256 == rest;
      assert bytes == [bytes[0]] + bytes[1..];
    }
  }

  lemma WordBound()
    ensures Bound(8) == WORD
  {
    assert Bound(2) == 65536;
    assert Bound(4) == 0x1_0000_0000;
    assert Bound(6) == 0x1_0000_0000_0000;
  }

  lemma ByteAt(n: nat, width: nat)
    requires width > 0
    ensures LittleEndian(n, width)[0] == n % 256 && LittleEndian(n, width)[1..] == LittleEndian(n / 256, width - 1)
  {
  }

  /** Eight bytes from `pos` on are the count `n`, by the value of each byte. */
  predicate IsCount(bytes: seq<Byte>, pos: nat, n: nat) {
    && pos + 8 <= |bytes|
    && bytes[pos] == n % 0x100
    && bytes[pos + 1] == n / 0x100 % 0x100
    && bytes[pos + 2] == n / 0x1_0000 % 0x100
    && bytes[pos + 3] == n / 0x100_0000 % 0x100
    && bytes[pos + 4] == n / 0x1_0000_0000 % 0x100
    && bytes[pos + 5] == n / 0x100_0000_0000 % 0x100
    && bytes[pos + 6] == n / 0x1_0000_0000_0000 % 0x100
    && bytes[pos + 7] == n / 0x100_0000_0000_0000 % 0x100
  }

  /** Least significant first. */
  lemma CountIs(n: nat)
    ensures IsCount(LittleEndian(n, 8), 0, n)
  {
    hide LittleEndian;
    var n1, n2, n3, n4 := n / 0x100, n / 0x1_0000, n / 0x100_0000, n / 0x1_0000_0000;
    var n5, n6, n7 := n / 0x100_0000_0000, n / 0x1_0000_0000_0000, n / 0x100_0000_0000_0000;
    assert n2 == n1 / 256 && n3 == n2 / 256 && n4 == n3 / 256 && n5 == n4 / 256 && n6 == n5 / 256 && n7 == n6 / 256;
    ByteAt(n, 8);
    ByteAt(n1, 7);
    ByteAt(n2, 6);
    ByteAt(n3, 5);
    ByteAt(n4, 4);
    ByteAt(n5, 3);
    ByteAt(n6, 2);
    ByteAt(n7, 1);
  }

  /** A count is given back by its bytes, each weighted by its place. */
  function Weighed(b: seq<Byte>): nat
    requires |b| == 8
  {
    b[0] as int + 0x100 * (b[1] as int) + 0x1_0000 * (b[2] as int) + 0x100_0000 * (b[3] as int) + 0x1_0000_0000 * (b[4] as int)
    + 0x100_0000_0000 * (b[5] as int) + 0x1_0000_0000_0000 * (b[6] as int) + 0x100_0000_0000_0000 * (b[7] as int)
  }

  lemma WeighedIs(b: seq<Byte>)
    requires |b| == 8
    ensures FromLittleEndian(b) == Weighed(b)
  {
    hide FromLittleEndian;
    var b1, b2, b3, b4, b5, b6, b7 := b[1..], b[2..], b[3..], b[4..], b[5..], b[6..], b[7..];
    FirstOctet(b);
    FirstOctet(b1);
    FirstOctet(b2);
    FirstOctet(b3);
    FirstOctet(b4);
    FirstOctet(b5);
    FirstOctet(b6);
    FirstOctet(b7);
    assert b1[1..] == b2 && b2[1..] == b3 && b3[1..] == b4 && b4[1..] == b5 && b5[1..] == b6 && b6[1..] == b7;
    NoOctets(b7[1..]);
  }

  lemma FirstOctet(b: Bytes)
    requires b != []
    ensures FromLittleEndian(b) == b[0] + 256 * FromLittleEndian(b[1..])
  {
  }

  lemma NoOctets(b: Bytes)
    requires b == []
    ensures FromLittleEndian(b) == 0
  {
  }
}
