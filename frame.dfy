/**
  The layout of a packet on the serial link, as the frames recorded in
  tmtc.py (lines 73-127) show it: a two-byte sync word `55 AA`, the 16-byte
  `CCSDS_Packet_Header` image, the user data, and a 32-bit CRC stored
  big-endian.

  The packet data length of the primary header counts the octets after the
  primary header (the 10-byte secondary header, the user data and the CRC),
  minus one, as section 4.1.2.5 of CCSDS 133.0-B-1 prescribes.
*/
module Frame {
  import opened Bytes
  import opened SpacePacket
  import CcsdsPkg

  const Sync: seq<bv8> := [0x55, 0xAA]
  const SecondaryHeaderSize: nat := 10
  const CrcSize: nat := 4

  /** The packet data length recorded for `payloadLength` bytes of user data. */
  function DataLengthFor(payloadLength: nat): int {
    SecondaryHeaderSize + payloadLength + CrcSize - 1
  }

  /** The header's data length matches the user data it travels with. */
  predicate Consistent(h: CcsdsPkg.Header, payload: seq<bv8>) {
    h.primary.dataLength as int == DataLengthFor(|payload|)
  }

  function FrameBytes(h: CcsdsPkg.Header, payload: seq<bv8>, crc: bv32): (r: seq<bv8>)
    ensures |r| == |Sync| + CcsdsPkg.HeaderSize + |payload| + CrcSize
  {
    Sync + CcsdsPkg.Encode(h) + payload + Be32(crc)
  }

  /** A frame splits back into its sync word, header, user data and CRC. */
  lemma FrameParts(h: CcsdsPkg.Header, payload: seq<bv8>, crc: bv32)
    ensures FrameBytes(h, payload, crc)[..2] == Sync
    ensures CcsdsPkg.Decode(FrameBytes(h, payload, crc)[2..18]) == h
    ensures FrameBytes(h, payload, crc)[18..18 + |payload|] == payload
    ensures FromBe32(FrameBytes(h, payload, crc)[18 + |payload|..]) == crc
  {
    var f := FrameBytes(h, payload, crc);
    assert f[2..18] == CcsdsPkg.Encode(h);
    CcsdsPkg.DecodeEncode(h);
    assert f[18 + |payload|..] == Be32(crc);
    Be32RoundTrip(crc);
  }

  /** Two frames with the same bytes carry the same header, user data and CRC. */
  lemma FrameInjective(h1: CcsdsPkg.Header, p1: seq<bv8>, c1: bv32, h2: CcsdsPkg.Header, p2: seq<bv8>, c2: bv32)
    requires FrameBytes(h1, p1, c1) == FrameBytes(h2, p2, c2)
    ensures h1 == h2 && p1 == p2 && c1 == c2
  {
    FrameParts(h1, p1, c1);
    FrameParts(h2, p2, c2);
  }

  /**
    With a consistent header, the data length plus one counts the octets of the
    frame after the sync word and the 6-byte primary header, and the whole frame
    is nine bytes longer than the recorded data length.
  */
  lemma FrameLength(h: CcsdsPkg.Header, payload: seq<bv8>, crc: bv32)
    requires Consistent(h, payload)
    ensures h.primary.dataLength as int + 1 == |FrameBytes(h, payload, crc)| - |Sync| - 6
    ensures |FrameBytes(h, payload, crc)| == h.primary.dataLength as int + 9
  {
  }

  /** The user data of the frame sent at tmtc.py:73-94 (the ASCII text "Hello!") and its header. */
  const SentPayload: seq<bv8> := [0x48, 0x65, 0x6C, 0x6C, 0x6F, 0x21]
  const SentHeader: CcsdsPkg.Header := CcsdsPkg.Header(PrimaryHeader(0, 0, 1, 0x123, 3, 100, 19), 0, 1, 0x10, 1)

  /** The user data of the frame received at tmtc.py:97-119 and its header. */
  const ReceivedPayload: seq<bv8> :=
    [0x06, 0x01, 0x03, 0xE0, 0x03, 0x8C, 0x03, 0x9B, 0x03, 0xAB, 0x03, 0xAC, 0x0A, 0x66, 0x08, 0x05]
  const ReceivedHeader: CcsdsPkg.Header := CcsdsPkg.Header(PrimaryHeader(0, 0, 1, 0x123, 3, 1, 29), 0, 0, 0, 0)

  /** Both recorded headers carry the data length their user data calls for (19 and 29). */
  lemma RecordedDataLengths()
    ensures Consistent(SentHeader, SentPayload)
    ensures Consistent(ReceivedHeader, ReceivedPayload)
  {
    assert (19 as bv16) as int == 19;
    assert (29 as bv16) as int == 29;
  }

  /** The 28 bytes sent at tmtc.py:93-94: sync word, header, user data, CRC word. */
  lemma SentFrame()
    ensures FrameBytes(SentHeader, SentPayload, 0xBB2F_AE08)
         == [0x55, 0xAA]
            + [0x09, 0x23, 0xC0, 0x64, 0x00, 0x13, 0x00, 0x00, 0x00, 0x00, 0x00, 0x00, 0x01, 0x10, 0x00, 0x01]
            + [0x48, 0x65, 0x6C, 0x6C, 0x6F, 0x21]
            + [0xBB, 0x2F, 0xAE, 0x08]
  {
    CcsdsPkg.TransmittedHeaderVector();
    assert Be32(0xBB2F_AE08) == [0xBB, 0x2F, 0xAE, 0x08];
  }

  /** The 38 bytes received at tmtc.py:97-98: sync word, header, user data, CRC word. */
  lemma ReceivedFrame()
    ensures FrameBytes(ReceivedHeader, ReceivedPayload, 0x342A_5C8C)
         == [0x55, 0xAA]
            + [0x09, 0x23, 0xC0, 0x01, 0x00, 0x1D, 0x00, 0x00, 0x00, 0x00, 0x00, 0x00, 0x00, 0x00, 0x00, 0x00]
            + [0x06, 0x01, 0x03, 0xE0, 0x03, 0x8C, 0x03, 0x9B, 0x03, 0xAB, 0x03, 0xAC, 0x0A, 0x66, 0x08, 0x05]
            + [0x34, 0x2A, 0x5C, 0x8C]
  {
    CcsdsPkg.ReceivedHeaderVector();
    assert Be32(0x342A_5C8C) == [0x34, 0x2A, 0x5C, 0x8C];
  }
}
