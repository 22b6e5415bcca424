/**
  Telemetry word decoding of tm.py: the user data of a telemetry packet is a
  run of big-endian unsigned 16-bit ADC words, one per channel, and channel
  `i` is labelled with entry `i mod 8` of an eight-entry annotation table.
  The scaling of a word to volts, amperes or degrees is not modelled.
*/
module Telemetry {
  import opened Bytes

  datatype Result<T> = Ok(value: T) | Err(error: UnpackError)

  /** `struct.unpack` refuses a buffer whose size is not `2 * count` bytes. */
  datatype UnpackError = SizeMismatch(expected: nat, actual: nat)

  /** Bytes per channel word. */
  const ChunkSize: nat := 2

  /** The word in bytes `2i` and `2i + 1`, most significant first. */
  function WordAt(data: seq<bv8>, i: nat): bv16
    requires ChunkSize * i + ChunkSize <= |data|
  {
    Unit16(data, ChunkSize * i)
  }

  /** `struct.unpack('>{n}H', data)` with `n = len(data) // 2`. */
  function Unpack(data: seq<bv8>): (r: Result<seq<bv16>>)
    ensures r.Ok? <==> |data| % 2 == 0
    ensures r.Ok? ==> |r.value| * 2 == |data|
    ensures r.Ok? ==> forall i :: 0 <= i < |r.value| ==> r.value[i] == FromBe16(data[2 * i..2 * i + 2])
    ensures r.Err? ==> r.error == SizeMismatch(|data| - 1, |data|)
  {
    var count := |data| / ChunkSize;
    if ChunkSize * count != |data| then
      Err(SizeMismatch(ChunkSize * count, |data|))
    else
      Ok(seq(count, i requires 0 <= i < count => WordAt(data, i)))
  }

  /** The inverse of `Unpack`: each word written as two bytes, most significant first. */
  function Pack(words: seq<bv16>): (r: seq<bv8>)
    ensures |r| == 2 * |words|
    ensures forall i :: 0 <= i < |words| ==> r[2 * i..2 * i + 2] == Be16(words[i])
  {
    if words == [] then []
    else
      var r := Be16(words[0]) + Pack(words[1..]);
      assert forall i :: 1 <= i < |words| ==> r[2 * i..2 * i + 2] == Pack(words[1..])[2 * (i - 1)..2 * (i - 1) + 2];
      r
  }

  /** A word read from two bytes has the value `hi * 256 + lo` (which never exceeds 16 bits). */
  lemma WordValue(hi: bv8, lo: bv8)
    ensures FromBe16([hi, lo]) == (hi as bv16) * 256 + (lo as bv16)
  {
  }

  lemma UnpackEmpty()
    ensures Unpack([]) == Ok([])
  {
  }

  /** Packing words and unpacking the bytes gives back the same words in the same order. */
  lemma UnpackPack(words: seq<bv16>)
    ensures Unpack(Pack(words)) == Ok(words)
  {
    var r := Unpack(Pack(words));
    forall i | 0 <= i < |words|
      ensures r.value[i] == words[i]
    {
      Be16RoundTrip(words[i]);
    }
    assert r.value == words;
  }

  /** Every even-length payload is the packing of the words unpacked from it. */
  lemma PackUnpack(data: seq<bv8>)
    requires |data| % 2 == 0
    ensures Unpack(data).Ok? && Pack(Unpack(data).value) == data
  {
    var words := Unpack(data).value;
    var p := Pack(words);
    forall k | 0 <= k < |data|
      ensures p[k] == data[k]
    {
      var i := k / 2;
      assert i < |words|;
      assert words[i] == FromBe16(data[2 * i..2 * i + 2]);
      assert p[2 * i..2 * i + 2] == Be16(words[i]);
      FromBe16RoundTrip(data[2 * i..2 * i + 2]);
      assert p[k] == p[2 * i..2 * i + 2][k - 2 * i];
    }
  }

  /** The eight quantities of the annotation table, in table order. */
  datatype Annotation =
    | Voltage28 | Current28
    | Voltage5 | Current5
    | VoltageMinus5 | CurrentMinus5
    | BoardTemperature | BoardVcc

  const Annotations: seq<Annotation> :=
    [Voltage28, Current28, Voltage5, Current5, VoltageMinus5, CurrentMinus5, BoardTemperature, BoardVcc]

  /** `get_annotation`: the table wraps around instead of running out. */
  function AnnotationIndex(index: nat): (r: nat)
    ensures r < |Annotations|
    ensures index < |Annotations| ==> r == index
  {
    index % |Annotations|
  }

  /** `get_annotation(index)`: the table entry itself for the first eight channels. */
  function AnnotationFor(index: nat): (r: Annotation)
    ensures index < |Annotations| ==> r == Annotations[index]
  {
    Annotations[AnnotationIndex(index)]
  }

  /** Channels eight apart share an annotation. */
  lemma AnnotationPeriodic(index: nat)
    ensures AnnotationFor(index + |Annotations|) == AnnotationFor(index)
  {
    assert AnnotationIndex(index + |Annotations|) == AnnotationIndex(index);
  }

  /** The table names eight different quantities, so within one period the index determines the annotation. */
  lemma AnnotationsDistinct(i: nat, j: nat)
    requires i < |Annotations| && j < |Annotations| && i != j
    ensures AnnotationFor(i) != AnnotationFor(j)
  {
  }

  datatype Channel = Channel(index: nat, value: bv16, annotation: Annotation)

  /** The channels of `Telemetery.parse`, in payload order, numbered by position. */
  function Parse(data: seq<bv8>): (r: Result<seq<Channel>>)
    ensures r.Ok? <==> |data| % 2 == 0
    ensures r.Ok? ==> |r.value| * 2 == |data|
    ensures r.Ok? ==> forall i :: 0 <= i < |r.value| ==>
              r.value[i] == Channel(i, FromBe16(data[2 * i..2 * i + 2]), AnnotationFor(i))
  {
    match Unpack(data)
    case Err(e) => Err(e)
    case Ok(words) => Ok(seq(|words|, i requires 0 <= i < |words| => Channel(i, words[i], AnnotationFor(i))))
  }

  /** The words printed at tmtc.py:120-127 for the received user data of tmtc.py:116. */
  lemma ReceivedWords()
    ensures Unpack([0x06, 0x01, 0x03, 0xE0, 0x03, 0x8C, 0x03, 0x9B, 0x03, 0xAB, 0x03, 0xAC, 0x0A, 0x66, 0x08, 0x05])
         == Ok([0x0601, 0x03E0, 0x038C, 0x039B, 0x03AB, 0x03AC, 0x0A66, 0x0805])
  {
    var d: seq<bv8> := [0x06, 0x01, 0x03, 0xE0, 0x03, 0x8C, 0x03, 0x9B, 0x03, 0xAB, 0x03, 0xAC, 0x0A, 0x66, 0x08, 0x05];
    var w := Unpack(d).value;
    assert w[0] == 0x0601 by { assert d[0..2] == [0x06, 0x01]; }
    assert w[1] == 0x03E0 by { assert d[2..4] == [0x03, 0xE0]; }
    assert w[2] == 0x038C by { assert d[4..6] == [0x03, 0x8C]; }
    assert w[3] == 0x039B by { assert d[6..8] == [0x03, 0x9B]; }
    assert w[4] == 0x03AB by { assert d[8..10] == [0x03, 0xAB]; }
    assert w[5] == 0x03AC by { assert d[10..12] == [0x03, 0xAC]; }
    assert w[6] == 0x0A66 by { assert d[12..14] == [0x0A, 0x66]; }
    assert w[7] == 0x0805 by { assert d[14..16] == [0x08, 0x05]; }
    assert |w| == 8;
    assert w == [0x0601, 0x03E0, 0x038C, 0x039B, 0x03AB, 0x03AC, 0x0A66, 0x0805];
  }

  /** The eight labelled channels of the received user data, as tmtc.py:120-127 lists them. */
  lemma ReceivedChannels()
    ensures Parse([0x06, 0x01, 0x03, 0xE0, 0x03, 0x8C, 0x03, 0x9B, 0x03, 0xAB, 0x03, 0xAC, 0x0A, 0x66, 0x08, 0x05])
         == Ok([Channel(0, 0x0601, Voltage28), Channel(1, 0x03E0, Current28),
                Channel(2, 0x038C, Voltage5), Channel(3, 0x039B, Current5),
                Channel(4, 0x03AB, VoltageMinus5), Channel(5, 0x03AC, CurrentMinus5),
                Channel(6, 0x0A66, BoardTemperature), Channel(7, 0x0805, BoardVcc)])
  {
    ReceivedWords();
    var words: seq<bv16> := [0x0601, 0x03E0, 0x038C, 0x039B, 0x03AB, 0x03AC, 0x0A66, 0x0805];
    var c := seq(8, i requires 0 <= i < 8 => Channel(i, words[i], AnnotationFor(i)));
    assert c == [Channel(0, 0x0601, Voltage28), Channel(1, 0x03E0, Current28),
                 Channel(2, 0x038C, Voltage5), Channel(3, 0x039B, Current5),
                 Channel(4, 0x03AB, VoltageMinus5), Channel(5, 0x03AC, CurrentMinus5),
                 Channel(6, 0x0A66, BoardTemperature), Channel(7, 0x0805, BoardVcc)];
  }
}
