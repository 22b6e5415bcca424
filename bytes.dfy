/**
  Big-endian storage of unsigned integer units as bytes.

  Every multi-byte unit of the packet header (a `BigEndianStructure` in
  ccsds_pkg.py and endian.py) and the CRC trailer of a frame is stored most
  significant byte first.  Each conversion comes with its inverse and the
  round-trip lemmas in both directions.
*/
module Bytes {

  function Be16(v: bv16): (r: seq<bv8>)
    ensures |r| == 2
  {
    [(v >> 8) as bv8, (v & 0xFF) as bv8]
  }

  function FromBe16(b: seq<bv8>): bv16
    requires |b| == 2
  {
    ((b[0] as bv16) << 8) | (b[1] as bv16)
  }

  lemma Be16RoundTrip(v: bv16)
    ensures FromBe16(Be16(v)) == v
  {
  }

  lemma FromBe16RoundTrip(b: seq<bv8>)
    requires |b| == 2
    ensures Be16(FromBe16(b)) == b
  {
  }

  function Be32(v: bv32): (r: seq<bv8>)
    ensures |r| == 4
  {
    [(v >> 24) as bv8, ((v >> 16) & 0xFF) as bv8, ((v >> 8) & 0xFF) as bv8, (v & 0xFF) as bv8]
  }

  function FromBe32(b: seq<bv8>): bv32
    requires |b| == 4
  {
    ((b[0] as bv32) << 24) | ((b[1] as bv32) << 16) | ((b[2] as bv32) << 8) | (b[3] as bv32)
  }

  lemma Be32RoundTrip(v: bv32)
    ensures FromBe32(Be32(v)) == v
  {
  }

  lemma FromBe32RoundTrip(b: seq<bv8>)
    requires |b| == 4
    ensures Be32(FromBe32(b)) == b
  {
  }

  function Be48(v: bv48): (r: seq<bv8>)
    ensures |r| == 6
  {
    [(v >> 40) as bv8, ((v >> 32) & 0xFF) as bv8, ((v >> 24) & 0xFF) as bv8,
     ((v >> 16) & 0xFF) as bv8, ((v >> 8) & 0xFF) as bv8, (v & 0xFF) as bv8]
  }

  function FromBe48(b: seq<bv8>): bv48
    requires |b| == 6
  {
    ((b[0] as bv48) << 40) | ((b[1] as bv48) << 32) | ((b[2] as bv48) << 24) |
    ((b[3] as bv48) << 16) | ((b[4] as bv48) << 8) | (b[5] as bv48)
  }

  lemma Be48RoundTrip(v: bv48)
    ensures FromBe48(Be48(v)) == v
  {
  }

  lemma FromBe48RoundTrip(b: seq<bv8>)
    requires |b| == 6
    ensures Be48(FromBe48(b)) == b
  {
  }

  function Be64(v: bv64): (r: seq<bv8>)
    ensures |r| == 8
  {
    [(v >> 56) as bv8, ((v >> 48) & 0xFF) as bv8, ((v >> 40) & 0xFF) as bv8, ((v >> 32) & 0xFF) as bv8,
     ((v >> 24) & 0xFF) as bv8, ((v >> 16) & 0xFF) as bv8, ((v >> 8) & 0xFF) as bv8, (v & 0xFF) as bv8]
  }

  function FromBe64(b: seq<bv8>): bv64
    requires |b| == 8
  {
    ((b[0] as bv64) << 56) | ((b[1] as bv64) << 48) | ((b[2] as bv64) << 40) | ((b[3] as bv64) << 32) |
    ((b[4] as bv64) << 24) | ((b[5] as bv64) << 16) | ((b[6] as bv64) << 8) | (b[7] as bv64)
  }

  lemma Be64RoundTrip(v: bv64)
    ensures FromBe64(Be64(v)) == v
  {
  }

  lemma FromBe64RoundTrip(b: seq<bv8>)
    requires |b| == 8
    ensures Be64(FromBe64(b)) == b
  {
  }

  /**
    A 64-bit unit whose top 48 bits hold `t` and whose low two bytes hold `hi`
    and `lo` is stored as the six bytes of `t` followed by `hi` and `lo`.
  */
  lemma Be64Split(t: bv48, hi: bv8, lo: bv8)
    ensures Be64(((t as bv64) << 16) | ((hi as bv64) << 8) | (lo as bv64)) == Be48(t) + [hi, lo]
  {
  }

  /** Reading the 64-bit unit back: its top 48 bits are the first six bytes, then the seventh and eighth byte. */
  lemma FromBe64Split(b: seq<bv8>)
    requires |b| == 8
    ensures (FromBe64(b) >> 16) as bv48 == FromBe48(b[..6])
    ensures ((FromBe64(b) >> 8) & 0xFF) as bv8 == b[6]
    ensures (FromBe64(b) & 0xFF) as bv8 == b[7]
  {
  }

  /** The bytes written after `x` are read back from the positions after `x`. */
  lemma SuffixOfConcat(x: seq<bv8>, y: seq<bv8>)
    ensures (x + y)[|x|..|x| + |y|] == y
  {
  }

  /** The 16-bit unit stored at `offset`. */
  function Unit16(b: seq<bv8>, offset: nat): bv16
    requires offset + 2 <= |b|
  {
    FromBe16(b[offset..offset + 2])
  }

  /** The 64-bit unit stored at `offset`. */
  function Unit64(b: seq<bv8>, offset: nat): bv64
    requires offset + 8 <= |b|
  {
    FromBe64(b[offset..offset + 8])
  }

  /** A unit is determined by its own bytes: storing elsewhere leaves it unchanged. */
  lemma Unit16Frame(a: seq<bv8>, b: seq<bv8>, offset: nat)
    requires offset + 2 <= |a| && offset + 2 <= |b|
    requires a[offset] == b[offset] && a[offset + 1] == b[offset + 1]
    ensures Unit16(a, offset) == Unit16(b, offset)
  {
    assert a[offset..offset + 2] == b[offset..offset + 2];
  }

  lemma Unit64Frame(a: seq<bv8>, b: seq<bv8>, offset: nat)
    requires offset + 8 <= |a| && offset + 8 <= |b|
    requires forall k :: offset <= k < offset + 8 ==> a[k] == b[k]
    ensures Unit64(a, offset) == Unit64(b, offset)
  {
    assert a[offset..offset + 8] == b[offset..offset + 8];
  }
}
