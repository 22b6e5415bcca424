/**
  The earlier draft of `CCSDS_Packet_Header` in endian.py.

  The primary header is declared exactly as in ccsds_pkg.py; the secondary
  header differs in its storage units:
    bytes  6-11  `timing_info` as a raw array of six bytes, kept as given
    bytes 12-13  one big-endian 16-bit unit: segment number (8) | function code (8)
    bytes 14-15  the address code
  With one-byte packing and no data array the structure is exactly 16 bytes.
*/
module Endian {
  import opened Bytes
  import opened SpacePacket
  import CcsdsPkg

  const Size: nat := 16

  /** The six raw timing bytes. */
  type Timing = s: seq<bv8> | |s| == 6 witness [0, 0, 0, 0, 0, 0]

  datatype DraftHeader = DraftHeader(
    primary: PrimaryHeader,
    timingInfo: Timing,
    segmentNumber: bv8,
    functionCode: bv8,
    addressCode: bv16)

  /** The 16-bit storage unit shared by the segment number and the function code. */
  function CodeUnit(h: DraftHeader): bv16 {
    ((h.segmentNumber as bv16) << 8) | (h.functionCode as bv16)
  }

  /** `bytes(header)` of the draft: the segment number lands on byte 12 and the function code on byte 13. */
  function Encode(h: DraftHeader): (r: seq<bv8>)
    ensures |r| == Size
    ensures r[12] == h.segmentNumber && r[13] == h.functionCode
  {
    CodeUnitBytes(h);
    EncodePrimary(h.primary) + h.timingInfo + Be16(CodeUnit(h)) + Be16(h.addressCode)
  }

  /** The draft fields overlaid on 16 bytes: the segment number is byte 12 and the function code byte 13. */
  function Decode(b: seq<bv8>): (r: DraftHeader)
    requires |b| == Size
    ensures r.segmentNumber == b[12] && r.functionCode == b[13]
  {
    DraftHeader(
      DecodePrimary(b[..6]),
      b[6..12],
      (Unit16(b, 12) >> 8) as bv8,
      (Unit16(b, 12) & 0xFF) as bv8,
      Unit16(b, 14))
  }

  /** The segment number is stored at byte 12 and the function code at byte 13. */
  lemma CodeUnitBytes(h: DraftHeader)
    ensures Be16(CodeUnit(h)) == [h.segmentNumber, h.functionCode]
  {
  }

  lemma DecodeEncode(h: DraftHeader)
    ensures Decode(Encode(h)) == h
  {
    var e := Encode(h);
    assert e[..6] == EncodePrimary(h.primary);
    DecodeEncodePrimary(h.primary);
    assert e[6..12] == h.timingInfo;
    assert e[12..14] == Be16(CodeUnit(h));
    Be16RoundTrip(CodeUnit(h));
    SuffixOfConcat(EncodePrimary(h.primary) + h.timingInfo + Be16(CodeUnit(h)), Be16(h.addressCode));
    Be16RoundTrip(h.addressCode);
  }

  /** Bytes 12-13 come back unchanged through the segment number and the function code. */
  lemma CodeUnitRoundTrip(b: seq<bv8>)
    requires |b| == Size
    ensures Be16(CodeUnit(Decode(b))) == b[12..14]
  {
    assert CodeUnit(Decode(b)) == Unit16(b, 12);
    FromBe16RoundTrip(b[12..14]);
  }

  lemma EncodeDecode(b: seq<bv8>)
    requires |b| == Size
    ensures Encode(Decode(b)) == b
  {
    EncodeDecodePrimary(b[..6]);
    CodeUnitRoundTrip(b);
    FromBe16RoundTrip(b[14..16]);
    assert b == b[..6] + b[6..12] + b[12..14] + b[14..16];
  }

  /** The draft header of ccsds_pkg.py's structure with 48-bit timing `t`. */
  function AsPackageHeader(h: DraftHeader, t: bv48): CcsdsPkg.Header {
    CcsdsPkg.Header(h.primary, t, h.segmentNumber, h.functionCode, h.addressCode)
  }

  /**
    The two declarations agree on the wire: when the six timing bytes are the
    big-endian form of `t`, the draft's 16 bytes are the first 16 bytes of the
    ccsds_pkg.py structure with `timing_info = t`.
  */
  lemma SameLayoutAsPackage(h: DraftHeader, t: bv48)
    requires h.timingInfo == Be48(t)
    ensures Encode(h) == CcsdsPkg.Encode(AsPackageHeader(h, t))
  {
    CcsdsPkg.EncodeLayout(AsPackageHeader(h, t));
    CodeUnitBytes(h);
  }

  /** Conversely, decoding the same 16 bytes with either declaration gives the same fields. */
  lemma SameFieldsAsPackage(b: seq<bv8>)
    requires |b| == Size
    ensures Decode(b) == DraftHeader(CcsdsPkg.Decode(b).primary, Be48(CcsdsPkg.Decode(b).timingInfo),
                                     CcsdsPkg.Decode(b).segmentNumber, CcsdsPkg.Decode(b).functionCode,
                                     CcsdsPkg.Decode(b).addressCode)
  {
    var p := CcsdsPkg.Decode(b);
    var h := DraftHeader(p.primary, Be48(p.timingInfo), p.segmentNumber, p.functionCode, p.addressCode);
    SameLayoutAsPackage(h, p.timingInfo);
    CcsdsPkg.EncodeDecode(b);
    DecodeEncode(h);
  }
}
