/**
  The 6-byte primary header of a CCSDS space packet, as laid out by the first
  seven bit-fields of both `CCSDS_Packet_Header` declarations (ccsds_pkg.py
  and endian.py).

  The fields fill three big-endian 16-bit storage units, each from its most
  significant bit down:
    bytes 0-1: version (3) | packet type (1) | secondary-header flag (1) | APID (11)
    bytes 2-3: sequence flags (2) | sequence count (14)
    bytes 4-5: packet data length (16)
  This is the primary header of section 4.1.2 of CCSDS 133.0-B-1 (Space
  Packet Protocol).  Every field is a bit-vector of exactly its declared
  width, so a stored value is always in range.
*/
module SpacePacket {
  import opened Bytes

  datatype PrimaryHeader = PrimaryHeader(
    versionNumber: bv3,
    packetType: bv1,
    secondHeaderFlag: bv1,
    apid: bv11,
    groupFlag: bv2,
    sequenceNumber: bv14,
    dataLength: bv16)

  /** The first storage unit (packet identification). */
  function IdentUnit(p: PrimaryHeader): bv16 {
    ((p.versionNumber as bv16) << 13) | ((p.packetType as bv16) << 12) |
    ((p.secondHeaderFlag as bv16) << 11) | (p.apid as bv16)
  }

  /** The second storage unit (packet sequence control). */
  function SequenceUnit(p: PrimaryHeader): bv16 {
    ((p.groupFlag as bv16) << 14) | (p.sequenceNumber as bv16)
  }

  /** The fields read back out of the three storage units. */
  function FromUnits(ident: bv16, sequence: bv16, length: bv16): PrimaryHeader {
    PrimaryHeader(
      (ident >> 13) as bv3,
      ((ident >> 12) & 1) as bv1,
      ((ident >> 11) & 1) as bv1,
      (ident & 0x7FF) as bv11,
      (sequence >> 14) as bv2,
      (sequence & 0x3FFF) as bv14,
      length)
  }

  /** Reading the units back yields the fields that were stored. */
  lemma FromUnitsOfUnits(p: PrimaryHeader)
    ensures FromUnits(IdentUnit(p), SequenceUnit(p), p.dataLength) == p
  {
  }

  /** Every bit of every unit belongs to one field. */
  lemma UnitsOfFromUnits(ident: bv16, sequence: bv16, length: bv16)
    ensures IdentUnit(FromUnits(ident, sequence, length)) == ident
    ensures SequenceUnit(FromUnits(ident, sequence, length)) == sequence
    ensures FromUnits(ident, sequence, length).dataLength == length
  {
  }

  /**
    The identification fields at their bit positions in bytes `hi`, `lo`:
    version in bits 7-5 of `hi`, packet type in bit 4, secondary-header flag
    in bit 3, and the APID in the low three bits of `hi` followed by `lo`.
  */
  predicate IdentBytes(p: PrimaryHeader, hi: bv8, lo: bv8) {
    && hi >> 5 == p.versionNumber as bv8
    && (hi >> 4) & 1 == p.packetType as bv8
    && (hi >> 3) & 1 == p.secondHeaderFlag as bv8
    && ((hi & 0x7) as bv11 << 8) | (lo as bv11) == p.apid
  }

  /** The sequence flags in the top two bits of `hi`, the count in the rest of `hi` followed by `lo`. */
  predicate SequenceBytes(p: PrimaryHeader, hi: bv8, lo: bv8) {
    && hi >> 6 == p.groupFlag as bv8
    && ((hi & 0x3F) as bv14 << 8) | (lo as bv14) == p.sequenceNumber
  }

  /**
    The primary-header layout of section 4.1.2 of CCSDS 133.0-B-1, bit by bit:
    the six bytes `b` carry the fields of `p`, most significant bit first.
  */
  predicate Layout(p: PrimaryHeader, b: seq<bv8>) {
    && |b| == 6
    && IdentBytes(p, b[0], b[1])
    && SequenceBytes(p, b[2], b[3])
    && ((b[4] as bv16) << 8) | (b[5] as bv16) == p.dataLength
  }

  lemma IdentUnitBytes(p: PrimaryHeader)
    ensures IdentBytes(p, (IdentUnit(p) >> 8) as bv8, (IdentUnit(p) & 0xFF) as bv8)
  {
  }

  lemma SequenceUnitBytes(p: PrimaryHeader)
    ensures SequenceBytes(p, (SequenceUnit(p) >> 8) as bv8, (SequenceUnit(p) & 0xFF) as bv8)
  {
  }

  function EncodePrimary(p: PrimaryHeader): (r: seq<bv8>)
    ensures |r| == 6
  {
    Be16(IdentUnit(p)) + Be16(SequenceUnit(p)) + Be16(p.dataLength)
  }

  /** The six bytes of a primary header lay its fields out bit by bit. */
  lemma EncodePrimaryLayout(p: PrimaryHeader)
    ensures Layout(p, EncodePrimary(p))
  {
    var r := EncodePrimary(p);
    assert r[0] == (IdentUnit(p) >> 8) as bv8 && r[1] == (IdentUnit(p) & 0xFF) as bv8;
    assert r[2] == (SequenceUnit(p) >> 8) as bv8 && r[3] == (SequenceUnit(p) & 0xFF) as bv8;
    assert r[4..6] == Be16(p.dataLength);
    IdentUnitBytes(p);
    SequenceUnitBytes(p);
    Be16RoundTrip(p.dataLength);
  }

  function DecodePrimary(b: seq<bv8>): PrimaryHeader
    requires |b| == 6
  {
    FromUnits(Unit16(b, 0), Unit16(b, 2), Unit16(b, 4))
  }

  lemma DecodeIdentBytes(b: seq<bv8>)
    requires |b| == 6
    ensures IdentBytes(DecodePrimary(b), b[0], b[1])
  {
    assert Unit16(b, 0) == ((b[0] as bv16) << 8) | (b[1] as bv16);
  }

  lemma DecodeSequenceBytes(b: seq<bv8>)
    requires |b| == 6
    ensures SequenceBytes(DecodePrimary(b), b[2], b[3])
  {
    assert Unit16(b, 2) == ((b[2] as bv16) << 8) | (b[3] as bv16);
  }

  /** The fields read from six bytes are the ones the layout puts there. */
  lemma DecodePrimaryLayout(b: seq<bv8>)
    requires |b| == 6
    ensures Layout(DecodePrimary(b), b)
  {
    DecodeIdentBytes(b);
    DecodeSequenceBytes(b);
    assert Unit16(b, 4) == ((b[4] as bv16) << 8) | (b[5] as bv16);
  }

  /** The three units of an encoding are the three units of the header. */
  lemma EncodePrimaryUnits(p: PrimaryHeader)
    ensures Unit16(EncodePrimary(p), 0) == IdentUnit(p)
    ensures Unit16(EncodePrimary(p), 2) == SequenceUnit(p)
    ensures Unit16(EncodePrimary(p), 4) == p.dataLength
  {
    var e := EncodePrimary(p);
    assert e[0..2] == Be16(IdentUnit(p));
    assert e[2..4] == Be16(SequenceUnit(p));
    assert e[4..6] == Be16(p.dataLength);
    Be16RoundTrip(IdentUnit(p));
    Be16RoundTrip(SequenceUnit(p));
    Be16RoundTrip(p.dataLength);
  }

  lemma DecodeEncodePrimary(p: PrimaryHeader)
    ensures DecodePrimary(EncodePrimary(p)) == p
  {
    EncodePrimaryUnits(p);
    FromUnitsOfUnits(p);
  }

  lemma EncodeDecodePrimary(b: seq<bv8>)
    requires |b| == 6
    ensures EncodePrimary(DecodePrimary(b)) == b
  {
    var i, s, l := Unit16(b, 0), Unit16(b, 2), Unit16(b, 4);
    UnitsOfFromUnits(i, s, l);
    FromBe16RoundTrip(b[0..2]);
    FromBe16RoundTrip(b[2..4]);
    FromBe16RoundTrip(b[4..6]);
    assert b == b[0..2] + b[2..4] + b[4..6];
  }

  /*
    Assigning one bit-field: the storage unit is read, the field's bits are
    cleared and the new value, already reduced to the field's width, is OR-ed
    in at the field's position.  Each lemma below states that this changes
    that one field and keeps every other field of the header.
  */

  lemma SetVersionNumberBits(ident: bv16, sequence: bv16, length: bv16, x: bv3)
    ensures FromUnits((ident & 0x1FFF) | ((x as bv16) << 13), sequence, length)
         == FromUnits(ident, sequence, length).(versionNumber := x)
  {
  }

  lemma SetPacketTypeBits(ident: bv16, sequence: bv16, length: bv16, x: bv1)
    ensures FromUnits((ident & 0xEFFF) | ((x as bv16) << 12), sequence, length)
         == FromUnits(ident, sequence, length).(packetType := x)
  {
  }

  lemma SetSecondHeaderFlagBits(ident: bv16, sequence: bv16, length: bv16, x: bv1)
    ensures FromUnits((ident & 0xF7FF) | ((x as bv16) << 11), sequence, length)
         == FromUnits(ident, sequence, length).(secondHeaderFlag := x)
  {
  }

  lemma SetApidBits(ident: bv16, sequence: bv16, length: bv16, x: bv11)
    ensures FromUnits((ident & 0xF800) | (x as bv16), sequence, length)
         == FromUnits(ident, sequence, length).(apid := x)
  {
  }

  lemma SetGroupFlagBits(ident: bv16, sequence: bv16, length: bv16, x: bv2)
    ensures FromUnits(ident, (sequence & 0x3FFF) | ((x as bv16) << 14), length)
         == FromUnits(ident, sequence, length).(groupFlag := x)
  {
  }

  lemma SetSequenceNumberBits(ident: bv16, sequence: bv16, length: bv16, x: bv14)
    ensures FromUnits(ident, (sequence & 0xC000) | (x as bv16), length)
         == FromUnits(ident, sequence, length).(sequenceNumber := x)
  {
  }
}
