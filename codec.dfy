/** Register codec of the AFE4404 driver: the 4-byte write frame and the
    decoding of the 3 bytes a register read returns, including the chip's
    22-bit two's-complement ADC codes. The bus transactions themselves are
    not modelled: a read is a function of the address and the received bytes. */
module Afe4404Codec {

  /** One call of the register-write routine: the address and the 32-bit value passed to it. */
  datatype Write = Write(reg: bv8, data: bv32)

  /** Big-endian reassembly of the three received bytes, accumulated the way the
      read routines do it (shift by 8, or in the next byte). */
  function Assemble(b0: bv8, b1: bv8, b2: bv8): (raw: bv32)
    ensures raw < 0x100_0000
  {
    (((b0 as bv32 << 8) | b1 as bv32) << 8) | b2 as bv32
  }

  /** The number the three bytes spell, most significant first. */
  function BigEndian(b0: bv8, b1: bv8, b2: bv8): (n: nat)
    ensures n < 0x100_0000
  {
    b0 as int * 0x1_0000 + b1 as int * 0x100 + b2 as int
  }

  // Proof strategy for the bit-level facts below: a bit-vector identity is
  // proved on its own, the integer value of a composite bit-vector term is
  // proved on the bare expression and then transferred to the function that
  // wraps it, and the remaining integer arithmetic is a lemma on ints only.
  // Mixing the three in one proof obligation is far more expensive.

  lemma BytesValue(b0: bv8, b1: bv8, b2: bv8)
    ensures ((b0 as bv32 << 16) | (b1 as bv32 << 8) | b2 as bv32) as int
            == b0 as int * 0x1_0000 + b1 as int * 0x100 + b2 as int
  {
  }

  /** The assembled bit pattern is the big-endian number the bytes spell. */
  lemma AssembleValue(b0: bv8, b1: bv8, b2: bv8)
    ensures Assemble(b0, b1, b2) as int == BigEndian(b0, b1, b2)
  {
    BytesValue(b0, b1, b2);
  }

  // ---------------------------------------------------------------- writes

  /** Bits 23-16, 15-8 and 7-0 of a value. */
  function HighByte(d: bv32): bv8 { ((d >> 16) & 0xFF) as bv8 }
  function MiddleByte(d: bv32): bv8 { ((d >> 8) & 0xFF) as bv8 }
  function LowByte(d: bv32): bv8 { (d & 0xFF) as bv8 }

  lemma SplitJoin(data: bv32)
    ensures Assemble(HighByte(data), MiddleByte(data), LowByte(data)) == data & 0xFF_FFFF
  {
  }

  /** The bytes sent on the bus for a register write: the address, then bits
      23-16, 15-8 and 7-0 of the value. Bits 31-24 are dropped: the frame
      carries exactly the low 24 bits of the value, most significant first. */
  function WriteFrame(reg: bv8, data: bv32): (frame: seq<bv8>)
    ensures |frame| == 4 && frame[0] == reg
    ensures Assemble(frame[1], frame[2], frame[3]) == data & 0xFF_FFFF
  {
    SplitJoin(data);
    [reg, HighByte(data), MiddleByte(data), LowByte(data)]
  }

  // ----------------------------------------------------------------- reads

  /** The conversion of a 32-bit pattern to int32_t (two's complement). */
  function ToInt32(x: bv32): int
  {
    if x < 0x8000_0000 then x as int else x as int - 0x1_0000_0000
  }

  /** The conversion of a value 0..0xFFFF to int16_t (two's complement). */
  function ToInt16(x: bv32): int
    requires x < 0x1_0000
  {
    if x < 0x8000 then x as int else x as int - 0x1_0000
  }

  /** The addresses the 32-bit read sign-extends: the six ADC result registers. */
  predicate IsAdcResult(reg: bv8)
  {
    0x2A <= reg <= 0x2F
  }

  /** Bit 21 of a received value: the sign of a 22-bit ADC code. */
  function SignBit(raw: bv32): bool
  {
    raw & 0x20_0000 != 0
  }

  /** The 22-bit ADC code of a received value. */
  function Low22(raw: bv32): (m: bv32)
    ensures m < 0x40_0000
  {
    raw & 0x3F_FFFF
  }

  /** A 22-bit code with bits 22-31 set, as the 32-bit read returns a negative code. */
  function Extend22(m: bv32): bv32
  {
    m ^ 0xFFC0_0000
  }

  /** Bits 6-21 of a received value, as the 16-bit read returns them. */
  function Code16(raw: bv32): (c: bv32)
    ensures c < 0x1_0000
  {
    (raw >> 6) & 0xFFFF
  }

  lemma Bit5Value(b: bv8)
    ensures (b & 0x20 != 0) <==> (b as int / 0x20) % 2 == 1
  {
  }

  lemma Low6Value(b: bv8)
    ensures (b & 0x3F) as int == b as int % 0x40
  {
  }

  lemma Bit21Bits(b0: bv8, b1: bv8, b2: bv8)
    ensures SignBit(Assemble(b0, b1, b2)) <==> (b0 & 0x20 != 0)
  {
  }

  lemma Bit21Arith(x: int, y: int, z: int)
    requires 0 <= x < 0x100 && 0 <= y < 0x100 && 0 <= z < 0x100
    ensures ((x * 0x1_0000 + y * 0x100 + z) / 0x20_0000) % 2 == (x / 0x20) % 2
  {
    assert x * 0x1_0000 + y * 0x100 + z == (x / 0x20) * 0x20_0000 + ((x % 0x20) * 0x1_0000 + y * 0x100 + z);
  }

  /** The sign bit of the received value is bit 21 of the number the bytes spell. */
  lemma Bit21OfAssemble(b0: bv8, b1: bv8, b2: bv8)
    ensures SignBit(Assemble(b0, b1, b2)) <==> (BigEndian(b0, b1, b2) / 0x20_0000) % 2 == 1
  {
    Bit21Bits(b0, b1, b2);
    Bit5Value(b0);
    Bit21Arith(b0 as int, b1 as int, b2 as int);
  }

  lemma Low22Bits(b0: bv8, b1: bv8, b2: bv8)
    ensures Low22(Assemble(b0, b1, b2)) == Assemble(b0 & 0x3F, b1, b2)
  {
  }

  lemma Low22Arith(x: int, y: int, z: int)
    requires 0 <= x < 0x100 && 0 <= y < 0x100 && 0 <= z < 0x100
    ensures (x * 0x1_0000 + y * 0x100 + z) % 0x40_0000 == (x % 0x40) * 0x1_0000 + y * 0x100 + z
  {
    assert x * 0x1_0000 == (x / 0x40) * 0x40_0000 + (x % 0x40) * 0x1_0000;
  }

  /** The 22-bit code is the received number modulo 2^22. */
  lemma Low22OfAssemble(b0: bv8, b1: bv8, b2: bv8)
    ensures Low22(Assemble(b0, b1, b2)) as int == BigEndian(b0, b1, b2) % 0x40_0000
  {
    Low22Bits(b0, b1, b2);
    AssembleValue(b0 & 0x3F, b1, b2);
    Low6Value(b0);
    Low22Arith(b0 as int, b1 as int, b2 as int);
  }

  /** The integer value of bits 0-5 of one byte, a second byte and bits 6-7 of a
      third, placed side by side. */
  lemma SliceValue(x: bv8, y: bv8, z: bv8)
    requires x < 0x40 && z < 4
    ensures ((x as bv32 << 10) | (y as bv32 << 2) | z as bv32) as int == x as int * 0x400 + y as int * 4 + z as int
  {
  }

  /** Bits 6-21 of an assembled value, rebuilt from the pieces of its bytes. */
  lemma SliceBits(b0: bv8, b1: bv8, b2: bv8)
    ensures Code16(Assemble(b0, b1, b2)) == ((b0 & 0x3F) as bv32 << 10) | (b1 as bv32 << 2) | (b2 >> 6) as bv32
  {
  }

  lemma High2Value(b: bv8)
    ensures (b >> 6) as int == b as int / 0x40
  {
  }

  lemma DivBy64(q: int, r: int)
    requires 0 <= r < 0x40
    ensures (q * 0x40 + r) / 0x40 == q
  {
  }

  lemma ModBy65536(q: int, r: int)
    requires 0 <= r < 0x1_0000
    ensures (q * 0x1_0000 + r) % 0x1_0000 == r
  {
  }

  lemma Slice16Arith(x: int, y: int, z: int)
    requires 0 <= x < 0x100 && 0 <= y < 0x100 && 0 <= z < 0x100
    ensures ((x * 0x1_0000 + y * 0x100 + z) / 0x40) % 0x1_0000 == (x % 0x40) * 0x400 + y * 4 + z / 0x40
  {
    var q := x * 0x400 + y * 4 + z / 0x40;
    assert x * 0x1_0000 + y * 0x100 + z == q * 0x40 + z % 0x40;
    DivBy64(q, z % 0x40);
    var r := (x % 0x40) * 0x400 + y * 4 + z / 0x40;
    assert q == (x / 0x40) * 0x1_0000 + r;
    ModBy65536(x / 0x40, r);
  }

  /** Bits 6-21 of the received value are the received number divided by 64, modulo 2^16. */
  lemma Slice16OfAssemble(b0: bv8, b1: bv8, b2: bv8)
    ensures Code16(Assemble(b0, b1, b2)) as int == (BigEndian(b0, b1, b2) / 0x40) % 0x1_0000
  {
    SliceBits(b0, b1, b2);
    SliceValue(b0 & 0x3F, b1, b2 >> 6);
    Low6Value(b0);
    High2Value(b2);
    Slice16Arith(b0 as int, b1 as int, b2 as int);
  }

  lemma SignExtendBits(m: bv32)
    requires m < 0x40_0000
    ensures Extend22(m) == m + 0xFFC0_0000
  {
  }

  /** Setting bits 22-31 of a 22-bit pattern and reading it as int32_t subtracts 2^22. */
  lemma SignExtend22(m: bv32)
    requires m < 0x40_0000
    ensures ToInt32(Extend22(m)) == m as int - 0x40_0000
  {
    SignExtendBits(m);
  }

  lemma Wrap16Arith(n: int)
    requires 0 <= n < 0x1_0000
    ensures var w := if n < 0x8000 then n else n - 0x1_0000;
            -0x8000 <= w < 0x8000 && (w + 0x1_0000) % 0x1_0000 == n
  {
  }

  lemma BelowHalf(x: bv32)
    requires x < 0x1_0000
    ensures 0 <= x as int < 0x1_0000 && (x < 0x8000 <==> x as int < 0x8000)
  {
  }

  /** The int16_t conversion lands in the int16 range and is congruent to its input modulo 2^16. */
  lemma ToInt16Wraps(x: bv32)
    requires x < 0x1_0000
    ensures -0x8000 <= ToInt16(x) < 0x8000
    ensures (ToInt16(x) + 0x1_0000) % 0x1_0000 == x as int
  {
    BelowHalf(x);
    Wrap16Arith(x as int);
  }

  /** The 32-bit register read. For an ADC result register whose bit 21 is set,
      the 22-bit code is negative and is sign-extended, so the result is the code
      minus 2^22. Every other received value is returned as the unsigned 24-bit
      number the bytes spell (for any address, and for an ADC register whose
      bit 21 is clear, whatever bits 22 and 23 hold). */
  function ReadRegister(reg: bv8, b0: bv8, b1: bv8, b2: bv8): (v: int)
    ensures var n := BigEndian(b0, b1, b2);
            if IsAdcResult(reg) && (n / 0x20_0000) % 2 == 1 then v == n % 0x40_0000 - 0x40_0000
            else v == n
  {
    var raw := Assemble(b0, b1, b2);
    AssembleValue(b0, b1, b2);
    Bit21OfAssemble(b0, b1, b2);
    if IsAdcResult(reg) && SignBit(raw) then
      var m := Low22(raw);
      Low22OfAssemble(b0, b1, b2);
      SignExtend22(m);
      ToInt32(Extend22(m))
    else
      ToInt32(raw)
  }

  /** The 16-bit register read: bits 6-21 of the received value taken as an
      int16_t, whatever the address. The result is in the int16 range and is
      the received number divided by 64, modulo 2^16. */
  function ReadRegister16(reg: bv8, b0: bv8, b1: bv8, b2: bv8): (v: int)
    ensures -0x8000 <= v < 0x8000
    ensures (v + 0x1_0000) % 0x1_0000 == (BigEndian(b0, b1, b2) / 0x40) % 0x1_0000
  {
    var raw := Assemble(b0, b1, b2);
    Slice16OfAssemble(b0, b1, b2);
    ToInt16Wraps(Code16(raw));
    ToInt16(Code16(raw))
  }

  // ------------------------------------------- round trips of the ADC codes

  lemma Code22Arith(v: int)
    requires -0x20_0000 <= v < 0x20_0000
    ensures var n := v % 0x100_0000;
            if v < 0 then (n / 0x20_0000) % 2 == 1 && n % 0x40_0000 - 0x40_0000 == v
            else (n / 0x20_0000) % 2 == 0 && n == v
  {
    var n := v % 0x100_0000;
    if v < 0 {
      assert n == v + 0x100_0000;
      assert 7 * 0x20_0000 <= n < 8 * 0x20_0000;
      assert n / 0x20_0000 == 7;
      assert n == 3 * 0x40_0000 + (v + 0x40_0000);
    } else {
      assert n == v;
      assert n / 0x20_0000 == 0;
    }
  }

  lemma Coarse16Arith(v: int)
    requires -0x20_0000 <= v < 0x20_0000
    ensures ((v % 0x100_0000) / 0x40) % 0x1_0000 == (v / 0x40 + 0x1_0000) % 0x1_0000
  {
    var u := v % 0x100_0000;
    if v < 0 {
      assert u == v + 0x100_0000;
      assert u / 0x40 == v / 0x40 + 0x4_0000;
    } else {
      assert u == v;
    }
  }

  lemma Wrap16Unique(w: int, t: int)
    requires -0x8000 <= w < 0x8000 && -0x8000 <= t < 0x8000
    requires (w + 0x1_0000) % 0x1_0000 == (t + 0x1_0000) % 0x1_0000
    ensures w == t
  {
  }

  /** Reading an ADC result register gives back the code the chip encoded
      (the 22-bit code v sent as three bytes in 24-bit two's complement, that is
      sign-extended into bits 22 and 23). */
  lemma AdcRoundTrip(reg: bv8, v: int, b0: bv8, b1: bv8, b2: bv8)
    requires IsAdcResult(reg)
    requires -0x20_0000 <= v < 0x20_0000
    requires BigEndian(b0, b1, b2) == v % 0x100_0000
    ensures ReadRegister(reg, b0, b1, b2) == v
  {
    Code22Arith(v);
  }

  /** On the chip's sign-extended codes the 16-bit read, from any address, is the
      32-bit read of an ADC result register divided by 64 and rounded down: the
      int16_t conversion takes bit 21 as the sign, so no sign is lost. */
  lemma Read16IsCoarseAdc(reg: bv8, reg16: bv8, v: int, b0: bv8, b1: bv8, b2: bv8)
    requires IsAdcResult(reg)
    requires -0x20_0000 <= v < 0x20_0000
    requires BigEndian(b0, b1, b2) == v % 0x100_0000
    ensures ReadRegister16(reg16, b0, b1, b2) == ReadRegister(reg, b0, b1, b2) / 0x40
  {
    AdcRoundTrip(reg, v, b0, b1, b2);
    Coarse16Arith(v);
    Wrap16Unique(ReadRegister16(reg16, b0, b1, b2), v / 0x40);
  }

  lemma Low24Bits(data: bv32)
    requires data < 0x100_0000
    ensures data & 0xFF_FFFF == data
  {
  }

  /** A 24-bit value written to a register that is not an ADC result register is
      read back unchanged, assuming the chip echoes the three data bytes. */
  lemma WriteReadBack(reg: bv8, data: bv32)
    requires !IsAdcResult(reg) && data < 0x100_0000
    ensures var f := WriteFrame(reg, data); ReadRegister(reg, f[1], f[2], f[3]) == data as int
  {
    var f := WriteFrame(reg, data);
    Low24Bits(data);
    AssembleValue(f[1], f[2], f[3]);
  }

  /** The two reads differ: only the 32-bit read looks at the address. */
  lemma ReadExamples()
    ensures ReadRegister(0x2C, 0x20, 0x00, 0x00) == -0x20_0000
    ensures ReadRegister(0x1D, 0x20, 0x00, 0x00) == 0x20_0000
    ensures ReadRegister(0x2C, 0xE0, 0x00, 0x01) == -0x1F_FFFF
    ensures ReadRegister16(0x2C, 0x12, 0x34, 0x56) == 0x48D1
    ensures ReadRegister16(0x1D, 0x20, 0x00, 0x00) == ReadRegister16(0x2C, 0x20, 0x00, 0x00) == -0x8000
  {
  }
}
