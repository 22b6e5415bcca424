/**
  The `CCSDS_Packet_Header` big-endian structure of ccsds_pkg.py.

  ctypes places bit-fields by platform-dependent rules; the layout modelled
  is the one the transcripts recorded on Windows show (tmtc.py:70-101, bytes
  12-15 `01 10 00 01`).  With one-byte packing it has no padding:
    bytes  0-5   the primary header (module SpacePacket)
    bytes  6-13  one big-endian 64-bit unit: timing (48) | segment (8) | function code (8)
    bytes 14-15  the address code
    bytes 16-31  the 16-byte `data` array
  `Encode`/`Decode` are the header's byte image (the first 16 bytes) and its
  inverse.  `Packet` is the mutable structure instance: a 32-byte buffer
  whose field assignments rewrite only the storage unit of that field.
*/
module CcsdsPkg {
  import opened Bytes
  import opened SpacePacket

  /** Bytes of the header fields, bytes of the data array, and the whole structure. */
  const HeaderSize: nat := 16
  const DataSize: nat := 16
  const Size: nat := 32

  datatype Header = Header(
    primary: PrimaryHeader,
    timingInfo: bv48,
    segmentNumber: bv8,
    functionCode: bv8,
    addressCode: bv16)

  /** The 64-bit storage unit shared by the three secondary-header bit-fields. */
  function SecondaryUnit(h: Header): bv64 {
    ((h.timingInfo as bv64) << 16) | ((h.segmentNumber as bv64) << 8) | (h.functionCode as bv64)
  }

  /** The fields read back out of the five storage units. */
  function Assemble(ident: bv16, sequence: bv16, length: bv16, secondary: bv64, address: bv16): Header {
    Header(
      FromUnits(ident, sequence, length),
      (secondary >> 16) as bv48,
      ((secondary >> 8) & 0xFF) as bv8,
      (secondary & 0xFF) as bv8,
      address)
  }

  /** `bytes(header)` restricted to the header fields. */
  function Encode(h: Header): (r: seq<bv8>)
    ensures |r| == HeaderSize
  {
    EncodePrimary(h.primary) + Be64(SecondaryUnit(h)) + Be16(h.addressCode)
  }

  /** The header fields of a structure overlaid on the bytes `b`. */
  function Decode(b: seq<bv8>): Header
    requires |b| == HeaderSize
  {
    Assemble(Unit16(b, 0), Unit16(b, 2), Unit16(b, 4), Unit64(b, 6), Unit16(b, 14))
  }

  /**
    The fields of the structure overlaid on 16 bytes, each read from its own
    bytes: the primary header from bytes 0-5, the timing from bytes 6-11 most
    significant first, the segment number from byte 12, the function code
    from byte 13 and the address code from bytes 14-15.
  */
  lemma DecodeLayout(b: seq<bv8>)
    requires |b| == HeaderSize
    ensures Decode(b).primary == DecodePrimary(b[..6])
    ensures Decode(b).timingInfo == FromBe48(b[6..12])
    ensures Decode(b).segmentNumber == b[12] && Decode(b).functionCode == b[13]
    ensures Decode(b).addressCode == FromBe16(b[14..16])
  {
    assert b[..6][0..2] == b[0..2] && b[..6][2..4] == b[2..4] && b[..6][4..6] == b[4..6];
    FromBe64Split(b[6..14]);
    assert b[6..14][..6] == b[6..12];
  }

  /**
    The byte layout spelled out: the primary header, then the six timing bytes
    most significant first, the segment number at byte 12, the function code at
    byte 13 and the address code at bytes 14-15.
  */
  lemma EncodeLayout(h: Header)
    ensures Encode(h) == EncodePrimary(h.primary) + Be48(h.timingInfo)
                         + [h.segmentNumber, h.functionCode] + Be16(h.addressCode)
  {
    var secondary := Be64(SecondaryUnit(h));
    assert secondary == Be48(h.timingInfo) + [h.segmentNumber, h.functionCode] by {
      Be64Split(h.timingInfo, h.segmentNumber, h.functionCode);
    }
    assert Encode(h) == EncodePrimary(h.primary) + secondary + Be16(h.addressCode);
  }

  lemma AssembleUnits(h: Header)
    ensures Assemble(IdentUnit(h.primary), SequenceUnit(h.primary), h.primary.dataLength,
                     SecondaryUnit(h), h.addressCode) == h
  {
    FromUnitsOfUnits(h.primary);
  }

  lemma SecondaryUnitOfAssemble(i: bv16, s: bv16, l: bv16, u: bv64, a: bv16)
    ensures SecondaryUnit(Assemble(i, s, l, u, a)) == u
  {
  }

  lemma EncodeUnits(h: Header)
    ensures Unit16(Encode(h), 0) == IdentUnit(h.primary)
    ensures Unit16(Encode(h), 2) == SequenceUnit(h.primary)
    ensures Unit16(Encode(h), 4) == h.primary.dataLength
    ensures Unit64(Encode(h), 6) == SecondaryUnit(h)
    ensures Unit16(Encode(h), 14) == h.addressCode
  {
    var e, p := Encode(h), EncodePrimary(h.primary);
    EncodePrimaryUnits(h.primary);
    assert e[0..2] == p[0..2] && e[2..4] == p[2..4] && e[4..6] == p[4..6];
    assert e[6..14] == Be64(SecondaryUnit(h));
    SuffixOfConcat(EncodePrimary(h.primary) + Be64(SecondaryUnit(h)), Be16(h.addressCode));
    Be64RoundTrip(SecondaryUnit(h));
    Be16RoundTrip(h.addressCode);
  }

  /** Reading a header back from its bytes yields the same field values. */
  lemma DecodeEncode(h: Header)
    ensures Decode(Encode(h)) == h
  {
    EncodeUnits(h);
    AssembleUnits(h);
  }

  /** Every one of the 128 header bits belongs to exactly one field: any 16 bytes survive a round trip. */
  lemma EncodeDecode(b: seq<bv8>)
    requires |b| == HeaderSize
    ensures Encode(Decode(b)) == b
  {
    var h := Decode(b);
    var i, s, l, u, a := Unit16(b, 0), Unit16(b, 2), Unit16(b, 4), Unit64(b, 6), Unit16(b, 14);
    UnitsOfFromUnits(i, s, l);
    SecondaryUnitOfAssemble(i, s, l, u, a);
    FromBe16RoundTrip(b[0..2]);
    FromBe16RoundTrip(b[2..4]);
    FromBe16RoundTrip(b[4..6]);
    FromBe64RoundTrip(b[6..14]);
    FromBe16RoundTrip(b[14..16]);
    assert b == b[0..2] + b[2..4] + b[4..6] + b[6..14] + b[14..16];
  }

  /** Two headers with the same bytes are the same header. */
  lemma EncodeInjective(h1: Header, h2: Header)
    requires Encode(h1) == Encode(h2)
    ensures h1 == h2
  {
    DecodeEncode(h1);
    DecodeEncode(h2);
  }

  /*
    Assigning a secondary-header bit-field rewrites its bits of the 64-bit unit
    and keeps the other fields.
  */

  lemma SetTimingInfoBits(i: bv16, s: bv16, l: bv16, u: bv64, a: bv16, x: bv48)
    ensures Assemble(i, s, l, (u & 0xFFFF) | ((x as bv64) << 16), a)
         == Assemble(i, s, l, u, a).(timingInfo := x)
  {
  }

  lemma SetSegmentNumberBits(i: bv16, s: bv16, l: bv16, u: bv64, a: bv16, x: bv8)
    ensures Assemble(i, s, l, (u & 0xFFFF_FFFF_FFFF_00FF) | ((x as bv64) << 8), a)
         == Assemble(i, s, l, u, a).(segmentNumber := x)
  {
  }

  lemma SetFunctionCodeBits(i: bv16, s: bv16, l: bv16, u: bv64, a: bv16, x: bv8)
    ensures Assemble(i, s, l, (u & 0xFFFF_FFFF_FFFF_FF00) | (x as bv64), a)
         == Assemble(i, s, l, u, a).(functionCode := x)
  {
  }

  /** Storing a 16-bit unit at byte `offset` of a header image replaces that unit only. */
  lemma Store16(b: seq<bv8>, offset: nat, w: bv16, b': seq<bv8>)
    requires |b| == HeaderSize && offset in {0, 2, 4, 14}
    requires b' == b[offset := (w >> 8) as bv8][offset + 1 := (w & 0xFF) as bv8]
    ensures Unit16(b', offset) == w
    ensures forall o :: o in {0, 2, 4, 14} && o != offset ==> Unit16(b', o) == Unit16(b, o)
    ensures Unit64(b', 6) == Unit64(b, 6)
  {
    assert b'[offset..offset + 2] == Be16(w);
    Be16RoundTrip(w);
    forall o | o in {0, 2, 4, 14} && o != offset
      ensures Unit16(b', o) == Unit16(b, o)
    {
      Unit16Frame(b, b', o);
    }
    Unit64Frame(b, b', 6);
  }

  /** Storing the 64-bit unit at bytes 6-13 replaces that unit only. */
  lemma Store64(b: seq<bv8>, w: bv64, b': seq<bv8>)
    requires |b| == HeaderSize && |b'| == HeaderSize
    requires b'[6..14] == Be64(w)
    requires forall k :: 0 <= k < 6 || 14 <= k < 16 ==> b'[k] == b[k]
    ensures Unit64(b', 6) == w
    ensures forall o :: o in {0, 2, 4, 14} ==> Unit16(b', o) == Unit16(b, o)
  {
    Be64RoundTrip(w);
    Unit16Frame(b, b', 0);
    Unit16Frame(b, b', 2);
    Unit16Frame(b, b', 4);
    Unit16Frame(b, b', 14);
  }

  /**
    The 16 bytes of the transcript kept at ccsds_pkg.py:79-99.  That transcript
    comes from an earlier script (`ccsds_header.py`) whose header had sequence
    count 0xCC, data length 0xFF and every other field zero; it does not reflect
    the secondary-header assignments of ccsds_pkg.py:52-55, nor the 32-byte
    size of the structure declared there.  The vector pins only the bytes it printed.
  */
  lemma PrintedHeaderVector()
    ensures Encode(Header(PrimaryHeader(0, 0, 0, 0, 0, 0xCC, 0xFF), 0, 0, 0, 0))
         == [0x00, 0x00, 0x00, 0xCC, 0x00, 0xFF, 0, 0, 0, 0, 0, 0, 0, 0, 0, 0]
  {
  }

  /** The header of the transmitted packet at tmtc.py:73-89. */
  lemma TransmittedHeaderVector()
    ensures Encode(Header(PrimaryHeader(0, 0, 1, 0x123, 3, 100, 19), 0, 1, 0x10, 1))
         == [0x09, 0x23, 0xC0, 0x64, 0x00, 0x13, 0, 0, 0, 0, 0, 0, 0x01, 0x10, 0x00, 0x01]
  {
  }

  /** The header of the received packet at tmtc.py:101-115, in both directions. */
  lemma ReceivedHeaderVector()
    ensures Encode(Header(PrimaryHeader(0, 0, 1, 0x123, 3, 1, 29), 0, 0, 0, 0))
         == [0x09, 0x23, 0xC0, 0x01, 0x00, 0x1D, 0, 0, 0, 0, 0, 0, 0, 0, 0, 0]
    ensures Decode([0x09, 0x23, 0xC0, 0x01, 0x00, 0x1D, 0, 0, 0, 0, 0, 0, 0, 0, 0, 0])
         == Header(PrimaryHeader(0, 0, 1, 0x123, 3, 1, 29), 0, 0, 0, 0)
  {
    var h := Header(PrimaryHeader(0, 0, 1, 0x123, 3, 1, 29), 0, 0, 0, 0);
    assert Encode(h) == [0x09, 0x23, 0xC0, 0x01, 0x00, 0x1D, 0, 0, 0, 0, 0, 0, 0, 0, 0, 0];
    DecodeEncode(h);
  }

  /** The header with every field zero: the state of a freshly created structure. */
  const ZeroHeader: Header := Header(PrimaryHeader(0, 0, 0, 0, 0, 0, 0), 0, 0, 0, 0)

  lemma ZeroHeaderBytes()
    ensures Decode(seq(HeaderSize, _ => 0 as bv8)) == ZeroHeader
  {
    assert Encode(ZeroHeader) == seq(HeaderSize, _ => 0 as bv8);
    DecodeEncode(ZeroHeader);
  }

  /**
    An instance of the structure: 32 bytes of storage.  The header fields and
    the data array are views of the buffer; each assignment changes the bytes
    of one storage unit (or one data byte) and nothing else.  A value assigned
    to a bit-field is reduced to the field's width, as a C bit-field assignment
    does: the stored value is the assigned integer modulo 2^width.
  */
  class Packet {
    const buf: array<bv8>

    ghost predicate Valid() {
      buf.Length == Size
    }

    /** The attribute reads `header.<field>`: the header whose image is the first 16 bytes. */
    function Fields(): (r: Header)
      reads buf
      requires Valid()
      ensures Encode(r) == buf[..HeaderSize]
    {
      EncodeDecode(buf[..HeaderSize]);
      Decode(buf[..HeaderSize])
    }

    /** The attribute read `header.data`: the 16 bytes after the header fields. */
    function Data(): (r: seq<bv8>)
      reads buf
      requires Valid()
      ensures |r| == DataSize
    {
      buf[HeaderSize..]
    }

    /** A new structure is all zero bytes. */
    constructor ()
      ensures Valid() && fresh(buf)
      ensures Fields() == ZeroHeader
      ensures Data() == seq(DataSize, _ => 0 as bv8)
    {
      buf := new bv8[Size](_ => 0);
      new;
      assert buf[..HeaderSize] == seq(HeaderSize, _ => 0 as bv8);
      ZeroHeaderBytes();
    }

    /** `bytes(header)`: the encoded header fields followed by the data array, with no padding. */
    method ToBytes() returns (r: seq<bv8>)
      requires Valid()
      ensures |r| == Size
      ensures r == Encode(Fields()) + Data()
    {
      r := buf[..];
      EncodeDecode(buf[..HeaderSize]);
      assert r == buf[..HeaderSize] + buf[HeaderSize..];
    }

    /** Writes the 16-bit unit `w` big-endian at byte `offset`. */
    method StoreUnit16(offset: nat, w: bv16)
      requires Valid() && offset in {0, 2, 4, 14}
      modifies buf
      ensures buf[..] == old(buf[..])[offset := (w >> 8) as bv8][offset + 1 := (w & 0xFF) as bv8]
    {
      buf[offset] := (w >> 8) as bv8;
      buf[offset + 1] := (w & 0xFF) as bv8;
    }

    /** Rewrites the identification unit (bytes 0-1) and proves the header changes as `FromUnits` says. */
    method StoreIdent(w: bv16)
      requires Valid()
      modifies buf
      ensures Fields() == old(Fields()).(primary := FromUnits(w, old(Unit16(buf[..HeaderSize], 2)),
                                                              old(Fields()).primary.dataLength))
      ensures Data() == old(Data())
    {
      ghost var b := buf[..HeaderSize];
      ghost var d := buf[HeaderSize..];
      StoreUnit16(0, w);
      Store16(b, 0, w, buf[..HeaderSize]);
      assert buf[HeaderSize..] == d;
    }

    /** Rewrites the sequence-control unit (bytes 2-3). */
    method StoreSequence(w: bv16)
      requires Valid()
      modifies buf
      ensures Fields() == old(Fields()).(primary := FromUnits(old(Unit16(buf[..HeaderSize], 0)), w,
                                                              old(Fields()).primary.dataLength))
      ensures Data() == old(Data())
    {
      ghost var b := buf[..HeaderSize];
      ghost var d := buf[HeaderSize..];
      StoreUnit16(2, w);
      Store16(b, 2, w, buf[..HeaderSize]);
      assert buf[HeaderSize..] == d;
    }

    /** Writes the 64-bit unit `w` big-endian at bytes 6-13, one byte at a time. */
    method StoreUnit64(w: bv64)
      requires Valid()
      modifies buf
      ensures buf[6..14] == Be64(w)
      ensures forall m :: 0 <= m < Size && !(6 <= m < 14) ==> buf[m] == old(buf[m])
    {
      var bytes := Be64(w);
      var k := 0;
      while k < 8
        invariant 0 <= k <= 8
        invariant forall m :: 0 <= m < Size && !(6 <= m < 6 + k) ==> buf[m] == old(buf[m])
        invariant forall m :: 6 <= m < 6 + k ==> buf[m] == bytes[m - 6]
      {
        buf[6 + k] := bytes[k];
        k := k + 1;
      }
    }

    /** Rewrites the 64-bit secondary unit (bytes 6-13) and proves only that unit of the header changes. */
    method StoreSecondary(w: bv64)
      requires Valid()
      modifies buf
      ensures Fields() == Assemble(old(Unit16(buf[..HeaderSize], 0)), old(Unit16(buf[..HeaderSize], 2)),
                                   old(Fields()).primary.dataLength, w, old(Fields()).addressCode)
      ensures Data() == old(Data())
    {
      ghost var b := buf[..HeaderSize];
      ghost var d := buf[HeaderSize..];
      StoreUnit64(w);
      ghost var b' := buf[..HeaderSize];
      assert b'[6..14] == buf[6..14];
      Store64(b, w, b');
      assert buf[HeaderSize..] == d;
    }

    method SetVersionNumber(v: int)
      requires Valid()
      modifies buf
      ensures Fields() == old(Fields()).(primary := old(Fields()).primary.(versionNumber := (v % 0x8) as bv3))
      ensures Data() == old(Data())
    {
      var x := (v % 0x8) as bv3;
      var unit := Unit16(buf[..HeaderSize], 0);
      SetVersionNumberBits(unit, Unit16(buf[..HeaderSize], 2), Fields().primary.dataLength, x);
      StoreIdent((unit & 0x1FFF) | ((x as bv16) << 13));
    }

    method SetPacketType(v: int)
      requires Valid()
      modifies buf
      ensures Fields() == old(Fields()).(primary := old(Fields()).primary.(packetType := (v % 0x2) as bv1))
      ensures Data() == old(Data())
    {
      var x := (v % 0x2) as bv1;
      var unit := Unit16(buf[..HeaderSize], 0);
      SetPacketTypeBits(unit, Unit16(buf[..HeaderSize], 2), Fields().primary.dataLength, x);
      StoreIdent((unit & 0xEFFF) | ((x as bv16) << 12));
    }

    method SetSecondHeaderFlag(v: int)
      requires Valid()
      modifies buf
      ensures Fields() == old(Fields()).(primary := old(Fields()).primary.(secondHeaderFlag := (v % 0x2) as bv1))
      ensures Data() == old(Data())
    {
      var x := (v % 0x2) as bv1;
      var unit := Unit16(buf[..HeaderSize], 0);
      SetSecondHeaderFlagBits(unit, Unit16(buf[..HeaderSize], 2), Fields().primary.dataLength, x);
      StoreIdent((unit & 0xF7FF) | ((x as bv16) << 11));
    }

    method SetApid(v: int)
      requires Valid()
      modifies buf
      ensures Fields() == old(Fields()).(primary := old(Fields()).primary.(apid := (v % 0x800) as bv11))
      ensures Data() == old(Data())
    {
      var x := (v % 0x800) as bv11;
      var unit := Unit16(buf[..HeaderSize], 0);
      SetApidBits(unit, Unit16(buf[..HeaderSize], 2), Fields().primary.dataLength, x);
      StoreIdent((unit & 0xF800) | (x as bv16));
    }

    method SetGroupFlag(v: int)
      requires Valid()
      modifies buf
      ensures Fields() == old(Fields()).(primary := old(Fields()).primary.(groupFlag := (v % 0x4) as bv2))
      ensures Data() == old(Data())
    {
      var x := (v % 0x4) as bv2;
      var unit := Unit16(buf[..HeaderSize], 2);
      SetGroupFlagBits(Unit16(buf[..HeaderSize], 0), unit, Fields().primary.dataLength, x);
      StoreSequence((unit & 0x3FFF) | ((x as bv16) << 14));
    }

    method SetSequenceNumber(v: int)
      requires Valid()
      modifies buf
      ensures Fields() == old(Fields()).(primary := old(Fields()).primary.(sequenceNumber := (v % 0x4000) as bv14))
      ensures Data() == old(Data())
    {
      var x := (v % 0x4000) as bv14;
      var unit := Unit16(buf[..HeaderSize], 2);
      SetSequenceNumberBits(Unit16(buf[..HeaderSize], 0), unit, Fields().primary.dataLength, x);
      StoreSequence((unit & 0xC000) | (x as bv16));
    }

    method SetDataLength(v: int)
      requires Valid()
      modifies buf
      ensures Fields() == old(Fields()).(primary := old(Fields()).primary.(dataLength := (v % 0x1_0000) as bv16))
      ensures Data() == old(Data())
    {
      var x := (v % 0x1_0000) as bv16;
      ghost var b := buf[..HeaderSize];
      ghost var d := buf[HeaderSize..];
      StoreUnit16(4, x);
      Store16(b, 4, x, buf[..HeaderSize]);
      assert buf[HeaderSize..] == d;
    }

    method SetTimingInfo(v: int)
      requires Valid()
      modifies buf
      ensures Fields() == old(Fields()).(timingInfo := (v % 0x1_0000_0000_0000) as bv48)
      ensures Data() == old(Data())
    {
      var x := (v % 0x1_0000_0000_0000) as bv48;
      var unit := Unit64(buf[..HeaderSize], 6);
      SetTimingInfoBits(Unit16(buf[..HeaderSize], 0), Unit16(buf[..HeaderSize], 2),
                        Fields().primary.dataLength, unit, Fields().addressCode, x);
      StoreSecondary((unit & 0xFFFF) | ((x as bv64) << 16));
    }

    method SetSegmentNumber(v: int)
      requires Valid()
      modifies buf
      ensures Fields() == old(Fields()).(segmentNumber := (v % 0x100) as bv8)
      ensures Data() == old(Data())
    {
      var x := (v % 0x100) as bv8;
      var unit := Unit64(buf[..HeaderSize], 6);
      SetSegmentNumberBits(Unit16(buf[..HeaderSize], 0), Unit16(buf[..HeaderSize], 2),
                           Fields().primary.dataLength, unit, Fields().addressCode, x);
      StoreSecondary((unit & 0xFFFF_FFFF_FFFF_00FF) | ((x as bv64) << 8));
    }

    method SetFunctionCode(v: int)
      requires Valid()
      modifies buf
      ensures Fields() == old(Fields()).(functionCode := (v % 0x100) as bv8)
      ensures Data() == old(Data())
    {
      var x := (v % 0x100) as bv8;
      var unit := Unit64(buf[..HeaderSize], 6);
      SetFunctionCodeBits(Unit16(buf[..HeaderSize], 0), Unit16(buf[..HeaderSize], 2),
                          Fields().primary.dataLength, unit, Fields().addressCode, x);
      StoreSecondary((unit & 0xFFFF_FFFF_FFFF_FF00) | (x as bv64));
    }

    method SetAddressCode(v: int)
      requires Valid()
      modifies buf
      ensures Fields() == old(Fields()).(addressCode := (v % 0x1_0000) as bv16)
      ensures Data() == old(Data())
    {
      var x := (v % 0x1_0000) as bv16;
      ghost var b := buf[..HeaderSize];
      ghost var d := buf[HeaderSize..];
      StoreUnit16(14, x);
      Store16(b, 14, x, buf[..HeaderSize]);
      assert buf[HeaderSize..] == d;
    }

    /**
      `header.data[i] = v`: one byte of the data array, reduced modulo 256.  As
      for any Python sequence, a negative index counts from the end.
    */
    method SetData(i: int, v: int)
      requires Valid() && -(DataSize as int) <= i < DataSize as int
      modifies buf
      ensures Fields() == old(Fields())
      ensures Data() == old(Data())[if i < 0 then i + DataSize else i := (v % 0x100) as bv8]
    {
      var k := if i < 0 then i + DataSize else i;
      buf[HeaderSize + k] := (v % 0x100) as bv8;
      assert buf[..HeaderSize] == old(buf[..HeaderSize]);
    }
  }
}
