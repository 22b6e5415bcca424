# CCSDS ground-station core: CRC-32, packet header layout, telemetry words

This project models the byte-level core of a small CCSDS (Consultative
Committee for Space Data Systems) ground-station toolkit and proves its properties in Dafny. The core has four parts:

- **crc32/crc32.c**: the bit-serial CRC-32 routine `crc32(data, length)`.
  - It uses the IEEE 802.3 polynomial 0x04C11DB7, MSB-first, with no reflection.
  - The initial value and the final XOR are both 0xFFFFFFFF (CRC-32/BZIP2).
  - The model is the imperative method `Crc32.Compute`, with nested loops. It is proved equal to the functional specification `Crc32.Checksum`, and the lemmas state the properties of that specification.
- **ccsds_pkg.py**: the `CCSDS_Packet_Header` big-endian, bit-packed structure.
  - It has a 6-byte primary header (section 4.1.2 of CCSDS 133.0-B-1, Space Packet Protocol) and a 10-byte secondary header.
  - A 16-byte `data` array follows the header.
  - The header image is modelled by `CcsdsPkg.Encode` and `CcsdsPkg.Decode`, with the primary-header part in `SpacePacket`.
  - ctypes places bit-fields by platform-dependent rules, and the structure mixes `c_uint16` and `c_uint64` bit-fields. The layout modelled is the one the transcripts recorded on Windows show (tmtc.py:70-101, bytes 12-15 `01 10 00 01`): the three secondary fields share one big-endian 64-bit unit at bytes 6-13.
  - The mutable structure instance is the class `CcsdsPkg.Packet`: a 32-byte buffer with one setter per field.
- **endian.py**: the earlier 16-byte draft of the same header. Its timing field is a raw 6-byte array, and it has no data array. It is modelled in `Endian` and proved byte-compatible with ccsds_pkg.py.
- **tm.py**: `Telemetery.parse` and `get_annotation`.
  - The user data is read as big-endian unsigned 16-bit ADC words.
  - Channel `i` gets annotation `i mod 8`.
  - The model is in `Telemetry`.

Two further modules complete the model:

- `Bytes` holds the big-endian storage units shared by the modules above.
- `Frame` states the serial-link frame layout that tmtc.py's recorded transcripts show: sync word `55 AA`, header, user data, big-endian CRC word.

The code's own behaviour is followed throughout. The C routine is the MSB-first, non-reflected CRC-32/BZIP2. Its Python companion crc32/crc32.py:1-4 passes the same demonstration input {1, 2, 3, 4, 5} to `zlib.crc32`, which is the reflected CRC-32, a different function. The recorded frame CRC words 0xBB2FAE08 and 0x342A5C8C equal `zlib.crc32` (the reflected CRC-32) of the header and user data, not `Crc32.Checksum` of them; the codec that computed them (`CCSDS_Packet.to_bytes` and `get_packet`, tmtc.py:37 and 48) is not defined in ccsds_pkg.py, the module tmtc.py:5 imports it from. For that reason those words appear only as the CRC word of a frame, never as outputs of `Crc32.Checksum`.

## Model

| member | source | states |
|---|---|---|
| Crc32.Compute | crc32/crc32.c:10-25 | The nested loops return exactly `Checksum` of the first `length` bytes. Only `data[0..length)` is read, and `length` is a 16-bit count. |
| Crc32.ShiftStep | crc32/crc32.c:16-20 | One shift step maps the register to zero exactly when the register is zero: the polynomial's low bit is set, so folding it in never gives zero. |
| Crc32.AbsorbByte | crc32/crc32.c:14-21 | After absorbing a byte the register is zero exactly when the byte, aligned to the top 8 bits, cancels the whole register. |
| Crc32.Checksum | crc32/crc32.c:6-24 | The empty input gives 0x00000000: the initial value and the final XOR cancel. What the routine returns for other inputs is stated by `Compute`, `RegisterAppend` and `CheckValue`. |
| Crc32.Register | crc32/crc32.c:13-22 | The register after the outer loop, one `AbsorbByte` per input byte. Its properties are stated by `RegisterAppend`, `RegisterZeros` and `Compute`. |
| Crc32.RegisterAppend | crc32/crc32.c:13-22 | The loop is a left fold: the register after `a + b` is the register after `b`, started from the register after `a`. |
| Crc32.IncrementalChecksum | crc32/crc32.c:13-24 | The checksum of `a + b` can be computed incrementally from the register reached after `a`. |
| Crc32.ShiftStepLinear | crc32/crc32.c:16-20 | One shift step is linear over GF(2): `step(x ^ y) == step(x) ^ step(y)`. |
| Crc32.IterateLinear | crc32/crc32.c:15-21 | Repeating any step that is linear over GF(2) any number of times is linear over GF(2). |
| Crc32.ShiftLinear | crc32/crc32.c:15-21 | Any number of shift steps is linear over GF(2). |
| Crc32.ShiftNonZero | crc32/crc32.c:15-21 | Any number of shift steps maps a register to zero exactly when it is zero. |
| Crc32.AbsorbByteLinear | crc32/crc32.c:14-21 | Absorbing a byte is linear in the register and the byte together. |
| Crc32.RegisterZeros | crc32/crc32.c:13-22 | Zero bytes keep a zero register at zero and a non-zero register non-zero. |
| Crc32.CheckValue | crc32/crc32.c:5-25 | The routine returns 0xFC891918 for the ASCII string "123456789", the catalogue check value of CRC-32/BZIP2. |
| Crc32.DemoValue | crc32/crc32.c:30-33 | The routine returns 0x1D70B47C for the demonstration input {1, 2, 3, 4, 5}. |
| Bytes.Be16RoundTrip | ccsds_pkg.py:3 | A 16-bit storage unit written big-endian reads back unchanged. |
| Bytes.FromBe16RoundTrip | ccsds_pkg.py:3 | Any two bytes are the big-endian image of the unit read from them. |
| Bytes.Be32RoundTrip | tmtc.py:91-93 | The 32-bit CRC word written big-endian reads back unchanged. |
| Bytes.FromBe32RoundTrip | tmtc.py:91-93 | Any four bytes are the big-endian image of the word read from them. |
| Bytes.Be48RoundTrip | ccsds_pkg.py:15 | The 48-bit timing field written as six big-endian bytes reads back unchanged. |
| Bytes.FromBe48RoundTrip | endian.py:16 | Any six raw timing bytes are the big-endian image of one 48-bit value. |
| Bytes.Be64RoundTrip | ccsds_pkg.py:15-17 | The 64-bit secondary storage unit written big-endian reads back unchanged. |
| Bytes.FromBe64RoundTrip | ccsds_pkg.py:15-17 | Any eight bytes are the big-endian image of the unit read from them. |
| Bytes.Be64Split | ccsds_pkg.py:15-17 | In the 64-bit unit, the timing occupies the first six bytes, the segment number the seventh and the function code the eighth. |
| Bytes.Unit16Frame | ccsds_pkg.py:3-21 | A 16-bit unit depends only on its own two bytes. |
| Bytes.Unit64Frame | ccsds_pkg.py:3-21 | A 64-bit unit depends only on its own eight bytes. |
| SpacePacket.EncodePrimary | ccsds_pkg.py:7-13 | The primary-header image is six bytes long. Its bit layout is stated by `EncodePrimaryLayout`. |
| SpacePacket.EncodePrimaryLayout | ccsds_pkg.py:7-13 | The six bytes lay the fields out as section 4.1.2 of CCSDS 133.0-B-1 does. Byte 0 holds the version in bits 7-5, the packet type in bit 4 and the flag in bit 3. The APID is the low three bits of byte 0 followed by byte 1. The sequence flags are the top two bits of byte 2, and the count is the rest of byte 2 followed by byte 3. The data length is bytes 4-5. |
| SpacePacket.DecodePrimary | ccsds_pkg.py:7-13 | The primary-header fields read from six bytes. What it reads is stated by `DecodePrimaryLayout`, and `DecodeEncodePrimary`/`EncodeDecodePrimary` make it the inverse of `EncodePrimary`. |
| SpacePacket.DecodePrimaryLayout | ccsds_pkg.py:7-13 | The fields read from any six bytes are the ones that the same layout puts at those bit positions. |
| SpacePacket.FromUnitsOfUnits | ccsds_pkg.py:7-13 | Reading the three primary-header units back yields every field that was stored, at its declared width. |
| SpacePacket.UnitsOfFromUnits | ccsds_pkg.py:7-13 | Every bit of the three primary units belongs to exactly one field. |
| SpacePacket.EncodePrimaryUnits | ccsds_pkg.py:7-13 | Bytes 0-1 hold `version<<13 \| type<<12 \| flag<<11 \| apid`, bytes 2-3 hold `flags<<14 \| count`, and bytes 4-5 hold the data length, all big-endian. |
| SpacePacket.DecodeEncodePrimary | ccsds_pkg.py:7-13 | Decoding an encoded primary header gives the same header. |
| SpacePacket.EncodeDecodePrimary | endian.py:8-14 | Encoding a decoded 6-byte primary header gives back the same six bytes. |
| SpacePacket.SetVersionNumberBits | ccsds_pkg.py:7 | Assigning the version bits changes the version number and no other primary field. |
| SpacePacket.SetPacketTypeBits | ccsds_pkg.py:8 | Assigning the type bit changes the packet type and nothing else. |
| SpacePacket.SetSecondHeaderFlagBits | ccsds_pkg.py:9 | Assigning the flag bit changes the secondary-header flag and nothing else. |
| SpacePacket.SetApidBits | ccsds_pkg.py:10 | Assigning the low 11 bits changes the APID and nothing else. |
| SpacePacket.SetGroupFlagBits | ccsds_pkg.py:11 | Assigning the top two sequence bits changes the sequence flags and nothing else. |
| SpacePacket.SetSequenceNumberBits | ccsds_pkg.py:12 | Assigning the low 14 sequence bits changes the sequence count and nothing else. |
| CcsdsPkg.Encode | ccsds_pkg.py:3-18 | `bytes(header)` restricted to the header fields is 16 bytes long. Its layout is stated by `EncodeLayout`. |
| CcsdsPkg.Decode | ccsds_pkg.py:5-18 | The header fields of a structure overlaid on 16 bytes. Where each field is read from is stated by `DecodeLayout`, and `DecodeEncode`/`EncodeDecode` make it the inverse of `Encode`. |
| CcsdsPkg.DecodeLayout | ccsds_pkg.py:5-18 | The fields of a structure overlaid on 16 bytes are read from their own bytes. The primary header comes from bytes 0-5 and the timing from bytes 6-11, most significant first. The segment number is byte 12, the function code byte 13 and the address code bytes 14-15. |
| CcsdsPkg.EncodeLayout | ccsds_pkg.py:3-18 | The header image is the primary header, then the six timing bytes most significant first, the segment number at byte 12, the function code at byte 13 and the address code at bytes 14-15. |
| CcsdsPkg.AssembleUnits | ccsds_pkg.py:5-18 | Reading the five storage units of a header back gives the header. |
| CcsdsPkg.SecondaryUnitOfAssemble | ccsds_pkg.py:15-17 | Every bit of the 64-bit secondary unit belongs to exactly one secondary field. |
| CcsdsPkg.EncodeUnits | ccsds_pkg.py:5-18 | The units read from an image at offsets 0, 2, 4, 6 and 14 are the header's five storage units. |
| CcsdsPkg.DecodeEncode | ccsds_pkg.py:5-18 | Decoding the image of any header gives the same header. |
| CcsdsPkg.EncodeDecode | ccsds_pkg.py:5-18 | Encoding the header overlaid on any 16 bytes gives back those 16 bytes. |
| CcsdsPkg.EncodeInjective | ccsds_pkg.py:5-18 | Two headers with the same image are the same header. |
| CcsdsPkg.SetTimingInfoBits | ccsds_pkg.py:15 | Rewriting the top 48 bits of the secondary unit changes the timing and nothing else. |
| CcsdsPkg.SetSegmentNumberBits | ccsds_pkg.py:16 | Rewriting bits 8-15 of the secondary unit changes the segment number and nothing else. |
| CcsdsPkg.SetFunctionCodeBits | ccsds_pkg.py:17 | Rewriting the low 8 bits of the secondary unit changes the function code and nothing else. |
| CcsdsPkg.Store16 | ccsds_pkg.py:7-18 | Writing a 16-bit unit at one offset replaces that unit and keeps every other unit. |
| CcsdsPkg.Store64 | ccsds_pkg.py:15-17 | Writing bytes 6-13 replaces the secondary unit and keeps the 16-bit units. |
| CcsdsPkg.PrintedHeaderVector | ccsds_pkg.py:79-99 | The 16 bytes printed in the transcript kept there: sequence count 0xCC and data length 0xFF, with every other field zero, encode to `00 00 00 cc 00 ff 00 … 00`. The transcript is from an earlier script, `ccsds_header.py` (line 80), so only those printed bytes are pinned. |
| CcsdsPkg.TransmittedHeaderVector | tmtc.py:73-89 | Version 0, type 0, flag 1, APID 0x123, flags 3, count 100, length 19, segment 1, function 0x10, address 1 encode to `09 23 C0 64 00 13 00 00 00 00 00 00 01 10 00 01`. |
| CcsdsPkg.ReceivedHeaderVector | tmtc.py:101-115 | The received bytes `09 23 C0 01 00 1D 00 … 00` decode to the printed fields, and those fields encode back to the same bytes. |
| CcsdsPkg.ZeroHeaderBytes | ccsds_pkg.py:41 | Sixteen zero bytes decode to the header with every field zero. |
| CcsdsPkg.Packet.constructor | ccsds_pkg.py:41 | A new structure is 32 zero bytes: every field is zero and the data array is all zeros. |
| CcsdsPkg.Packet.Fields | ccsds_pkg.py:5-18 | The attribute reads `header.<field>` give the header whose 16-byte image is exactly the structure's first 16 bytes. |
| CcsdsPkg.Packet.Data | ccsds_pkg.py:20 | `header.data` is 16 bytes long. |
| CcsdsPkg.Packet.ToBytes | ccsds_pkg.py:3-21 | `bytes(header)` is the 16-byte header image followed by the 16 data bytes, with no padding (32 bytes). |
| CcsdsPkg.Packet.StoreUnit16 | ccsds_pkg.py:7-18 | Writes one 16-bit unit big-endian and changes no other byte. |
| CcsdsPkg.Packet.StoreUnit64 | ccsds_pkg.py:15-17 | Writes the 64-bit secondary unit big-endian at bytes 6-13, one byte at a time, and changes no other byte. |
| CcsdsPkg.Packet.StoreIdent | ccsds_pkg.py:7-10 | Rewriting bytes 0-1 changes only the four identification fields. |
| CcsdsPkg.Packet.StoreSequence | ccsds_pkg.py:11-12 | Rewriting bytes 2-3 changes only the sequence flags and the count. |
| CcsdsPkg.Packet.StoreSecondary | ccsds_pkg.py:15-17 | Rewriting bytes 6-13 changes only the three secondary fields. |
| CcsdsPkg.Packet.SetVersionNumber | ccsds_pkg.py:7 | `header.version_number = v` stores `v mod 8` and keeps every other field and the data. |
| CcsdsPkg.Packet.SetPacketType | ccsds_pkg.py:8 | `header.packet_type = v` stores `v mod 2` and keeps everything else. |
| CcsdsPkg.Packet.SetSecondHeaderFlag | ccsds_pkg.py:9 | `header.second_header_flag = v` stores `v mod 2` and keeps everything else. |
| CcsdsPkg.Packet.SetApid | ccsds_pkg.py:10 | `header.apid = v` stores `v mod 2048` and keeps everything else. |
| CcsdsPkg.Packet.SetGroupFlag | ccsds_pkg.py:11 | `header.group_flag = v` stores `v mod 4` and keeps everything else. |
| CcsdsPkg.Packet.SetSequenceNumber | ccsds_pkg.py:12 | `header.sequence_number = v` stores `v mod 16384` and keeps everything else. |
| CcsdsPkg.Packet.SetDataLength | ccsds_pkg.py:13 | `header.data_length = v` stores `v mod 65536` and keeps everything else. |
| CcsdsPkg.Packet.SetTimingInfo | ccsds_pkg.py:15 | `header.timing_info = v` stores `v mod 2^48` and keeps everything else. |
| CcsdsPkg.Packet.SetSegmentNumber | ccsds_pkg.py:16 | `header.segment_number = v` stores `v mod 256` and keeps everything else. |
| CcsdsPkg.Packet.SetFunctionCode | ccsds_pkg.py:17 | `header.function_code = v` stores `v mod 256` and keeps everything else. |
| CcsdsPkg.Packet.SetAddressCode | ccsds_pkg.py:18 | `header.address_code = v` stores `v mod 65536` and keeps everything else. |
| CcsdsPkg.Packet.SetData | ccsds_pkg.py:20 | `header.data[i] = v` stores `v mod 256` in data byte `i` (an index from -16 to -1 counts from the end) and changes no header field and no other data byte. |
| Endian.Encode | endian.py:6-20 | The draft header image is 16 bytes long, with the segment number on byte 12 and the function code on byte 13. |
| Endian.Decode | endian.py:6-20 | Overlaid on 16 bytes, the draft reads the segment number from byte 12 and the function code from byte 13. |
| Endian.CodeUnitBytes | endian.py:17-18 | The segment number is stored at byte 12 and the function code at byte 13. |
| Endian.DecodeEncode | endian.py:6-20 | Decoding the 16-byte image of a draft header gives the same header, including the six raw timing bytes in their given order. |
| Endian.EncodeDecode | endian.py:6-20 | Encoding the draft header overlaid on any 16 bytes gives back those bytes. |
| Endian.SameLayoutAsPackage | endian.py:6-20 | When the six timing bytes are the big-endian form of `t`, the draft's image equals the ccsds_pkg.py header image with timing `t`. |
| Endian.SameFieldsAsPackage | endian.py:6-20 | Decoding the same 16 bytes with either declaration gives the same fields. |
| Frame.FrameBytes | tmtc.py:93-94 | A frame is 2 sync bytes, 16 header bytes, the user data and 4 CRC bytes long. |
| Frame.FrameParts | tmtc.py:93-98 | A frame splits back into its sync word, its header (decoded), its user data and its big-endian CRC word. |
| Frame.FrameInjective | tmtc.py:93-98 | Two frames with equal bytes carry the same header, data and CRC. |
| Frame.FrameLength | tmtc.py:85-98 | With a consistent data length, that length plus one counts the frame's octets other than the sync word and the 6-byte primary header (section 4.1.2.5 of CCSDS 133.0-B-1), and the frame is that length plus 9 bytes long (28 and 38 in the recordings). |
| Frame.RecordedDataLengths | tmtc.py:85-116 | Both recorded headers (data lengths 19 and 29) are consistent with their user data (6 and 16 bytes). |
| Frame.SentFrame | tmtc.py:73-94 | The sent packet's fields, the text "Hello!" and the CRC word 0xBB2FAE08 form the 28 recorded bytes. |
| Frame.ReceivedFrame | tmtc.py:97-117 | The received packet's fields, its 16 data bytes and the CRC word 0x342A5C8C form the 38 recorded bytes. |
| Telemetry.Unpack | tm.py:40-44 | `struct.unpack('>nH')` with `n = len // 2`. It succeeds exactly on even-length data, giving `len / 2` words with word `i` read big-endian from bytes `2i`, `2i+1`. Odd lengths report the size mismatch. |
| Telemetry.Pack | tm.py:44 | The inverse layout: word `i` occupies bytes `2i` and `2i+1`, most significant first. |
| Telemetry.WordValue | tm.py:44 | A word read from bytes `hi`, `lo` is `hi * 256 + lo`. |
| Telemetry.UnpackEmpty | tm.py:42-46 | Empty user data gives zero words. |
| Telemetry.UnpackPack | tm.py:44 | Unpacking packed words gives the same words in the same order. |
| Telemetry.PackUnpack | tm.py:44 | Every even-length payload is the packing of its unpacked words. |
| Telemetry.AnnotationIndex | tm.py:30-32 | The selected table entry is always inside the eight-entry table, and it is the index itself below eight. |
| Telemetry.AnnotationFor | tm.py:30-32 | Each of the first eight channels gets the table entry with its own index. |
| Telemetry.AnnotationPeriodic | tm.py:30-32 | Channels eight apart get the same annotation: the table wraps around instead of running out. |
| Telemetry.AnnotationsDistinct | tm.py:19-28 | Within one period, different channels get different annotations. |
| Telemetry.Parse | tm.py:34-48 | The channels come out in payload order. Channel `i` carries word `i` and annotation `i mod 8`. Parsing fails exactly on odd-length data. |
| Telemetry.ReceivedWords | tmtc.py:116-127 | The received user data gives the words 0x0601, 0x03E0, 0x038C, 0x039B, 0x03AB, 0x03AC, 0x0A66, 0x0805. |
| Telemetry.ReceivedChannels | tmtc.py:120-127 | Those words are channels 0-7, labelled 28V voltage through board VCC as printed. |

The lemmas `Crc32.ShiftStepCases`, `Crc32.RegisterSnoc`, `Crc32.RegisterStep`, `Crc32.Finalize`, `Crc32.AbsorbLiteral`, `Crc32.StepValuesLinear`, `Crc32.AlignLinear`, `Crc32.ShiftStepIsLinear`, `Crc32.IterateShiftStepLinear`, `Bytes.SuffixOfConcat`, `Bytes.FromBe64Split`, `SpacePacket.IdentUnitBytes`, `SpacePacket.SequenceUnitBytes`, `SpacePacket.DecodeIdentBytes`, `SpacePacket.DecodeSequenceBytes` and `Endian.CodeUnitRoundTrip` are proof helpers for the members above. They state no property of the source of their own.

## Left out

- The GUI (ui/ui.py) and the serial, WebSocket and MQTT bridges (flask-socketio/app.py, mqtt/). These are I/O and concurrency.
- The serial-port and command-line code of com.py, ccsds.py and tmtc.py. This includes the read-until-timeout loop, which is transport timing. tmtc.py's recorded transcripts are used only as vectors.
- The `CCSDS_Packet` codec, the `get_packet` stream synchronizer and the `from_file` descriptor loader called from tmtc.py and ccsds.py. tmtc.py:5 imports everything from ccsds_pkg, but ccsds_pkg.py defines only `CCSDS_Packet_Header`, so these are not part of this model. `Frame` states only the layout that the recorded frames show.
- crc32.py and crc32/crc32.py, the wrappers over `zlib.crc32` (the reflected CRC-32). A frame's CRC word is a parameter of `Frame.FrameBytes`, not computed.
- `format_with_threshold` and the annotation lambdas of tm.py: floating-point scaling, threshold comparison and ANSI colour codes. An annotation is modelled as the name of its table entry.
- The printing in `Telemetery.parse`. `Telemetry.Parse` returns the channels that the loop prints.
- Printing and demonstration code: crc32.c's `main`/`printf`, and ccsds_pkg.py's `__str__` and `__main__` block. That block assigns `header.app_id`, which is not a declared field, so the APID stays 0. The transcript at ccsds_pkg.py:79-99 comes from an earlier script, `ccsds_header.py` (line 80). It prints 16 bytes and zero timing, segment, function and address codes, although ccsds_pkg.py:52-55 assign 0xff, 0x22, 0x12 and 0x23 and the declared structure is 32 bytes. `CcsdsPkg.PrintedHeaderVector` therefore pins only the bytes that transcript printed.
- endian.py's `print(sys.byteorder)`. The module also uses `BigEndianStructure` without importing ctypes, so it is modelled only as a layout declaration.
- CcsdsPkg.Packet.SetData: an index outside -16..15 raises `IndexError` in Python. The model makes that a precondition instead of an error result.
- Crc32.Compute: the inner counter `j` (uint16_t in crc32.c:12) is an unbounded integer. It never exceeds 8, so nothing is lost. The outer counter `i` keeps its 16-bit type.
- Crc32.RegisterZeros: single-byte error detection is stated only for runs of zero bytes. The general statement (a single corrupted byte always changes the checksum) follows from the linearity lemmas, but it is not proved here.
