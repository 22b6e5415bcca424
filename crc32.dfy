/**
  The bit-serial CRC-32 routine of crc32/crc32.c.

  The register is 32 bits wide and runs MSB-first without reflection: the
  generator polynomial is the IEEE 802.3 one (0x04C11DB7), the register starts
  at all ones and the result is XORed with all ones (the variant catalogued
  as CRC-32/BZIP2).  The C routine is `Compute`; the functions `ShiftStep`,
  `Shift`, `AbsorbByte`, `Register` and `Checksum` are its specification, and
  the lemmas state what the routine guarantees about that specification.
*/
module Crc32 {

  /** The C parameter type `uint16_t`: inputs are at most 65535 bytes long. */
  newtype u16 = x: int | 0 <= x < 0x1_0000

  const Polynomial: bv32 := 0x04C1_1DB7
  const Initial: bv32 := 0xFFFF_FFFF
  const FinalXor: bv32 := 0xFFFF_FFFF

  /** One shift of the register: the polynomial is folded in when bit 31 falls out. */
  function ShiftStep(crc: bv32): (r: bv32)
    ensures r == 0 <==> crc == 0
  {
    if crc & 0x8000_0000 != 0 then (crc << 1) ^ Polynomial else crc << 1
  }

  /** `n` applications of a step function `f`. */
  function Iterate(f: bv32 -> bv32, crc: bv32, n: nat): bv32 {
    if n == 0 then crc else f(Iterate(f, crc, n - 1))
  }

  /** `n` successive shift steps. */
  function Shift(crc: bv32, n: nat): bv32 {
    Iterate(ShiftStep, crc, n)
  }

  /**
    One input byte: XOR it into the top 8 bits, then shift eight times.  The
    register becomes zero only when the byte cancels a register that held
    nothing but that byte.
  */
  function AbsorbByte(crc: bv32, b: bv8): (r: bv32)
    ensures r == 0 <==> crc ^ ((b as bv32) << 24) == 0
  {
    ShiftNonZero(crc ^ ((b as bv32) << 24), 8);
    Shift(crc ^ ((b as bv32) << 24), 8)
  }

  /** The register after absorbing `data` from `crc`, one byte at a time from the front. */
  function Register(crc: bv32, data: seq<bv8>): bv32 {
    if |data| == 0 then crc else AbsorbByte(Register(crc, data[..|data| - 1]), data[|data| - 1])
  }

  /** The value the C routine returns for the bytes `data`. */
  function Checksum(data: seq<bv8>): (r: bv32)
    ensures data == [] ==> r == 0
  {
    Register(Initial, data) ^ FinalXor
  }

  /**
    One shift step, case by case: when bit 31 is set the register becomes
    `(crc << 1) ^ 0x04C11DB7`, otherwise `crc << 1`, all modulo 2^32.
  */
  lemma ShiftStepCases(crc: bv32)
    ensures crc & 0x8000_0000 != 0 ==> ShiftStep(crc) == (crc << 1) ^ Polynomial
    ensures crc & 0x8000_0000 == 0 ==> ShiftStep(crc) == crc << 1
  {
  }

  /** `crc32(data, length)`: only `data[0..length)` is read and the result depends on those bytes alone. */
  method Compute(data: array<bv8>, length: u16) returns (crc: bv32)
    requires length as int <= data.Length
    ensures crc == Checksum(data[..length])
  {
    crc := Initial;
    var i: u16 := 0;
    while i < length
      invariant i <= length
      invariant crc == Register(Initial, data[..i])
    {
      ghost var before := crc;
      crc := crc ^ ((data[i] as bv32) << 24);
      ghost var aligned := crc;
      var j := 0;
      while j < 8
        invariant 0 <= j <= 8
        invariant crc == Shift(aligned, j)
      {
        ghost var prev := crc;
        if crc & 0x8000_0000 != 0 {
          crc := (crc << 1) ^ Polynomial;
        } else {
          crc := crc << 1;
        }
        assert crc == ShiftStep(prev) by { ShiftStepCases(prev); }
        j := j + 1;
      }
      assert data[..i + 1] == data[..i] + [data[i]];
      RegisterStep(data[..i], data[i], before, aligned, crc);
      i := i + 1;
    }
    assert data[..length] == data[..i];
    Finalize(data[..length], crc);
    crc := crc ^ FinalXor;
  }

  /** Absorbing one more byte at the end. */
  lemma RegisterSnoc(crc: bv32, data: seq<bv8>, b: bv8)
    ensures Register(crc, data + [b]) == AbsorbByte(Register(crc, data), b)
  {
    assert (data + [b])[..|data|] == data;
  }

  /** The outer-loop step of `Compute`: aligning a byte and shifting eight times absorbs it. */
  lemma RegisterStep(data: seq<bv8>, b: bv8, before: bv32, aligned: bv32, after: bv32)
    requires before == Register(Initial, data)
    requires aligned == before ^ ((b as bv32) << 24)
    requires after == Shift(aligned, 8)
    ensures after == Register(Initial, data + [b])
  {
    RegisterSnoc(Initial, data, b);
    assert AbsorbByte(before, b) == Shift(aligned, 8);
  }

  /** The last line of `Compute`: the final XOR turns the register into the checksum. */
  lemma Finalize(data: seq<bv8>, register: bv32)
    requires register == Register(Initial, data)
    ensures register ^ FinalXor == Checksum(data)
  {
  }

  /** The CRC is a left fold: absorbing `a + b` is absorbing `b` from the register reached after `a`. */
  lemma {:induction false} RegisterAppend(crc: bv32, a: seq<bv8>, b: seq<bv8>)
    ensures Register(crc, a + b) == Register(Register(crc, a), b)
  {
    if |b| == 0 {
      assert a + b == a;
    } else {
      var b' := b[..|b| - 1];
      assert (a + b)[..|a + b| - 1] == a + b';
      assert (a + b)[|a + b| - 1] == b[|b| - 1];
      RegisterAppend(crc, a, b');
    }
  }

  /** Incremental CRC: the checksum of `a + b` can be computed from the register after `a`. */
  lemma IncrementalChecksum(a: seq<bv8>, b: seq<bv8>)
    ensures Checksum(a + b) == Register(Register(Initial, a), b) ^ FinalXor
  {
    RegisterAppend(Initial, a, b);
  }

  /** The linearity of one step, over explicit register values. */
  lemma StepValuesLinear(x: bv32, y: bv32, sx: bv32, sy: bv32, sxy: bv32)
    requires x & 0x8000_0000 != 0 ==> sx == (x << 1) ^ Polynomial
    requires x & 0x8000_0000 == 0 ==> sx == x << 1
    requires y & 0x8000_0000 != 0 ==> sy == (y << 1) ^ Polynomial
    requires y & 0x8000_0000 == 0 ==> sy == y << 1
    requires (x ^ y) & 0x8000_0000 != 0 ==> sxy == ((x ^ y) << 1) ^ Polynomial
    requires (x ^ y) & 0x8000_0000 == 0 ==> sxy == (x ^ y) << 1
    ensures sxy == sx ^ sy
  {
  }

  /** A shift step is linear over GF(2). */
  lemma ShiftStepLinear(x: bv32, y: bv32)
    ensures ShiftStep(x ^ y) == ShiftStep(x) ^ ShiftStep(y)
  {
    ShiftStepCases(x);
    ShiftStepCases(y);
    ShiftStepCases(x ^ y);
    StepValuesLinear(x, y, ShiftStep(x), ShiftStep(y), ShiftStep(x ^ y));
  }

  /** Addition over GF(2), as a named function so that it can carry a trigger. */
  function Xor(a: bv32, b: bv32): bv32 {
    a ^ b
  }

  /** `f` is linear over GF(2). */
  ghost predicate Linear(f: bv32 -> bv32) {
    forall a: bv32, b: bv32 {:trigger f(Xor(a, b))} :: f(Xor(a, b)) == Xor(f(a), f(b))
  }

  /** Iterating a step that is linear over GF(2) is linear over GF(2). */
  lemma {:induction false} IterateLinear(f: bv32 -> bv32, x: bv32, y: bv32, n: nat)
    requires Linear(f)
    ensures Iterate(f, Xor(x, y), n) == Xor(Iterate(f, x, n), Iterate(f, y, n))
  {
    if n > 0 {
      IterateLinear(f, x, y, n - 1);
    }
  }

  lemma ShiftStepIsLinear()
    ensures Linear(ShiftStep)
  {
    forall a: bv32, b: bv32
      ensures ShiftStep(Xor(a, b)) == Xor(ShiftStep(a), ShiftStep(b))
    {
      ShiftStepLinear(a, b);
    }
  }

  /** Any number of shift steps, as an iteration, is linear over GF(2). */
  lemma IterateShiftStepLinear(x: bv32, y: bv32, n: nat)
    ensures Iterate(ShiftStep, Xor(x, y), n) == Xor(Iterate(ShiftStep, x, n), Iterate(ShiftStep, y, n))
  {
    ShiftStepIsLinear();
    IterateLinear(ShiftStep, x, y, n);
  }

  /** Any number of shift steps is linear over GF(2). */
  lemma {:induction false} ShiftLinear(x: bv32, y: bv32, n: nat)
    ensures Shift(x ^ y, n) == Shift(x, n) ^ Shift(y, n)
  {
    IterateShiftStepLinear(x, y, n);
    assert Shift(x ^ y, n) == Iterate(ShiftStep, Xor(x, y), n);
    assert Shift(x, n) ^ Shift(y, n) == Xor(Iterate(ShiftStep, x, n), Iterate(ShiftStep, y, n));
  }

  lemma {:induction false} ShiftNonZero(x: bv32, n: nat)
    ensures Shift(x, n) == 0 <==> x == 0
  {
    if n > 0 {
      ShiftNonZero(x, n - 1);
    }
  }

  /** Aligning two bytes to the top of the register commutes with XOR. */
  lemma AlignLinear(x: bv32, y: bv32, a: bv8, b: bv8, ax: bv32, ay: bv32, axy: bv32)
    requires ax == x ^ ((a as bv32) << 24)
    requires ay == y ^ ((b as bv32) << 24)
    requires axy == (x ^ y) ^ (((a ^ b) as bv32) << 24)
    ensures axy == ax ^ ay
  {
  }

  /** Absorbing a byte is linear in the register and the byte together. */
  lemma AbsorbByteLinear(x: bv32, y: bv32, a: bv8, b: bv8)
    ensures AbsorbByte(x, a) ^ AbsorbByte(y, b) == AbsorbByte(x ^ y, a ^ b)
  {
    var ax, ay := x ^ ((a as bv32) << 24), y ^ ((b as bv32) << 24);
    var axy := (x ^ y) ^ (((a ^ b) as bv32) << 24);
    AlignLinear(x, y, a, b, ax, ay, axy);
    ShiftLinear(ax, ay, 8);
  }

  /** Zero bytes keep a zero register at zero and a non-zero register non-zero. */
  lemma {:induction false} RegisterZeros(x: bv32, z: seq<bv8>)
    requires forall k :: 0 <= k < |z| ==> z[k] == 0
    ensures Register(x, z) == 0 <==> x == 0
  {
    if |z| > 0 {
      var n := |z| - 1;
      RegisterZeros(x, z[..n]);
      var r := Register(x, z[..n]);
      assert r ^ ((z[n] as bv32) << 24) == r;
    }
  }

  /** Absorbing one literal byte, with the aligned register given explicitly. */
  lemma AbsorbLiteral(crc: bv32, b: bv8, aligned: bv32, r: bv32)
    requires aligned == crc ^ ((b as bv32) << 24)
    requires Shift(aligned, 8) == r
    ensures AbsorbByte(crc, b) == r
  {
  }

  /** The catalogue check value of CRC-32/BZIP2: the ASCII string "123456789". */
  lemma CheckValue()
    ensures Checksum([0x31, 0x32, 0x33, 0x34, 0x35, 0x36, 0x37, 0x38, 0x39]) == 0xFC89_1918
  {
    AbsorbLiteral(0xFFFF_FFFF, 0x31, 0xCEFF_FFFF, 0x9EFB_CF93);
    AbsorbLiteral(0x9EFB_CF93, 0x32, 0xACFB_CF93, 0x3FEC_5E6A);
    AbsorbLiteral(0x3FEC_5E6A, 0x33, 0x0CEC_5E6A, 0xD952_F164);
    AbsorbLiteral(0xD952_F164, 0x34, 0xED52_F164, 0xA695_C4AA);
    AbsorbLiteral(0xA695_C4AA, 0x35, 0x9395_C4AA, 0xBD9A_B747);
    AbsorbLiteral(0xBD9A_B747, 0x36, 0x8B9A_B747, 0xD8F0_6C8F);
    AbsorbLiteral(0xD8F0_6C8F, 0x37, 0xEFF0_6C8F, 0x0D8A_14C4);
    AbsorbLiteral(0x0D8A_14C4, 0x38, 0x358A_14C4, 0x49E3_C2FB);
    AbsorbLiteral(0x49E3_C2FB, 0x39, 0x70E3_C2FB, 0x0376_E6E7);
    var s: seq<bv8> := [];
    RegisterSnoc(Initial, s, 0x31);
    RegisterSnoc(Initial, s + [0x31], 0x32);
    RegisterSnoc(Initial, s + [0x31] + [0x32], 0x33);
    RegisterSnoc(Initial, s + [0x31] + [0x32] + [0x33], 0x34);
    RegisterSnoc(Initial, s + [0x31] + [0x32] + [0x33] + [0x34], 0x35);
    RegisterSnoc(Initial, s + [0x31] + [0x32] + [0x33] + [0x34] + [0x35], 0x36);
    RegisterSnoc(Initial, s + [0x31] + [0x32] + [0x33] + [0x34] + [0x35] + [0x36], 0x37);
    RegisterSnoc(Initial, s + [0x31] + [0x32] + [0x33] + [0x34] + [0x35] + [0x36] + [0x37], 0x38);
    RegisterSnoc(Initial, s + [0x31] + [0x32] + [0x33] + [0x34] + [0x35] + [0x36] + [0x37] + [0x38], 0x39);
    assert s + [0x31] + [0x32] + [0x33] + [0x34] + [0x35] + [0x36] + [0x37] + [0x38] + [0x39] == [0x31, 0x32, 0x33, 0x34, 0x35, 0x36, 0x37, 0x38, 0x39];
  }

  /** The input of the demonstration driver in crc32.c. */
  lemma DemoValue()
    ensures Checksum([1, 2, 3, 4, 5]) == 0x1D70_B47C
  {
    AbsorbLiteral(0xFFFF_FFFF, 1, 0xFEFF_FFFF, 0x4AC9_A203);
    AbsorbLiteral(0x4AC9_A203, 2, 0x48C9_A203, 0xDB2C_9ECF);
    AbsorbLiteral(0xDB2C_9ECF, 3, 0xD82C_9ECF, 0x1B0D_6951);
    AbsorbLiteral(0x1B0D_6951, 4, 0x1F0D_6951, 0x7937_37CD);
    AbsorbLiteral(0x7937_37CD, 5, 0x7C37_37CD, 0xE28F_4B83);
    var s: seq<bv8> := [];
    RegisterSnoc(Initial, s, 1);
    RegisterSnoc(Initial, s + [1], 2);
    RegisterSnoc(Initial, s + [1] + [2], 3);
    RegisterSnoc(Initial, s + [1] + [2] + [3], 4);
    RegisterSnoc(Initial, s + [1] + [2] + [3] + [4], 5);
    assert s + [1] + [2] + [3] + [4] + [5] == [1, 2, 3, 4, 5];
  }
}
