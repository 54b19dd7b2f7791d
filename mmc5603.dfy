/**
 * The MMC5603 magnetometer driver: the 20-bit field decode of the 9-byte output block, the
 * temperature formula, and the control-register caches behind `data_rate`, `continuous_mode`
 * and `reset`. Register writes are recorded in order as a trace; the bus transfers, the
 * sleeps and the measurement-done poll loops are not modelled.
 */
module Mmc5603 {
  import opened Results
  import opened Oversample
  import opened Bytes

  const ChipId: bv8 := 0x10        // expected content of the product-ID register
  const OutXL: bv8 := 0x00         // first register of the field output block
  const OdrReg: bv8 := 0x1A        // output data rate
  const CtrlReg0: bv8 := 0x1B
  const CtrlReg1: bv8 := 0x1C
  const CtrlReg2: bv8 := 0x1D

  const HighPowerBit: bv8 := 0x80  // CTRL2 hpower: 1000 Hz continuous rate
  const ContinuousBit: bv8 := 0x10 // CTRL2 cmm_en: continuous measurement

  const CenterOffset: int := 0x8_0000       // 1 << 19: the zero-field count
  const MicroTeslaPerCount: real := 0.00625

  /** The output block a field read transfers: X, Y, Z high and middle bytes, then three low-nibble bytes. */
  type Frame = s: seq<bv8> | |s| == 9 witness [0, 0, 0, 0, 0, 0, 0, 0, 0]

  /** One write to a control register. */
  datatype RegWrite = RegWrite(register: bv8, value: bv8)

  // ---------------------------------------------------------------- field decode

  /** `hi << 12 | mid << 4 | lo >> 4`, the axis value as `magnetic` assembles it. */
  function Axis20Bits(hi: bv8, mid: bv8, lo: bv8): bv32 {
    (hi as bv32 << 12) | (mid as bv32 << 4) | (lo as bv32 >> 4)
  }

  /** The axis value as a number: the high byte, the middle byte and the high nibble of the low byte as base-16 digits. */
  function Axis20(hi: bv8, mid: bv8, lo: bv8): (r: int)
    ensures 0 <= r < 0x10_0000
  {
    hi as int * 4096 + mid as int * 16 + lo as int / 16
  }

  /** The three parts of the OR occupy disjoint bit ranges, so the OR is their sum: an unsigned 20-bit count. */
  lemma Axis20BitsIsSum(hi: bv8, mid: bv8, lo: bv8)
    ensures Axis20Bits(hi, mid, lo) as int == Axis20(hi, mid, lo)
  {
    OrIsSum(hi, mid, lo);
  }

  lemma OrIsSum(hi: bv8, mid: bv8, lo: bv8)
    ensures ((hi as bv32 << 12) | (mid as bv32 << 4) | (lo as bv32 >> 4)) as int
         == hi as int * 4096 + mid as int * 16 + lo as int / 16
  {
  }

  /** An axis count recentred on the zero-field value: a signed 20-bit count. */
  function AxisCount(hi: bv8, mid: bv8, lo: bv8): (c: int)
    ensures -CenterOffset <= c < CenterOffset
  {
    Axis20(hi, mid, lo) - CenterOffset
  }

  /** The three signed counts of an output block (X from bytes 0, 1, 6; Y from 2, 3, 7; Z from 4, 5, 8). */
  function Counts(f: Frame): (int, int, int) {
    (AxisCount(f[0], f[1], f[6]), AxisCount(f[2], f[3], f[7]), AxisCount(f[4], f[5], f[8]))
  }

  /** The field in microtesla that `magnetic` returns for an output block. */
  function Decode(f: Frame): (v: Vec3)
    ensures -3276.8 <= v.x < 3276.8 && -3276.8 <= v.y < 3276.8 && -3276.8 <= v.z < 3276.8
  {
    var (cx, cy, cz) := Counts(f);
    Vec3(cx as real * MicroTeslaPerCount, cy as real * MicroTeslaPerCount, cz as real * MicroTeslaPerCount)
  }

  /** The all-zero block is the most negative field: -2^19 counts, -3276.8 uT on each axis. */
  lemma DecodeZeroFrame()
    ensures Decode([0, 0, 0, 0, 0, 0, 0, 0, 0]) == Vec3(-3276.8, -3276.8, -3276.8)
  {
  }

  /** The bytes (high, middle, low) that carry a signed count; the low nibble of the low byte is 0. */
  function EncodeAxis(c: int): (bytes: (bv8, bv8, bv8))
    requires -CenterOffset <= c < CenterOffset
  {
    var u := c + CenterOffset;
    ((u / 4096) as bv8, (u / 16 % 256) as bv8, ((u % 16) as bv8) << 4)
  }

  /** An output block carrying the three signed counts. */
  function EncodeFrame(cx: int, cy: int, cz: int): Frame
    requires -CenterOffset <= cx < CenterOffset && -CenterOffset <= cy < CenterOffset
    requires -CenterOffset <= cz < CenterOffset
  {
    var (xh, xm, xl) := EncodeAxis(cx);
    var (yh, ym, yl) := EncodeAxis(cy);
    var (zh, zm, zl) := EncodeAxis(cz);
    [xh, xm, yh, ym, zh, zm, xl, yl, zl]
  }

  lemma AxisRoundTrip(c: int)
    requires -CenterOffset <= c < CenterOffset
    ensures var (h, m, l) := EncodeAxis(c); AxisCount(h, m, l) == c
  {
    var u := c + CenterOffset;
    SplitCount(u);
    NibbleUp(u % 16);
    var (h, m, l) := EncodeAxis(c);
    ByteOfInt(u / 4096);
    ByteOfInt(u / 16 % 256);
    assert Axis20(h, m, l) == u / 4096 * 4096 + u / 16 % 256 * 16 + u % 16;
  }

  /** A 20-bit count is its three digits in base 4096, 256 and 16. */
  lemma SplitCount(u: int)
    requires 0 <= u < 0x10_0000
    ensures u == u / 4096 * 4096 + u / 16 % 256 * 16 + u % 16
    ensures u / 4096 < 256
  {
    var h, m, n := u / 4096, u / 16 % 256, u % 16;
    assert u == u / 16 * 16 + n;
    assert u / 16 == u / 16 / 256 * 256 + m;
    assert u / 16 / 256 == h;
  }

  lemma NibbleUp(n: int)
    requires 0 <= n < 16
    ensures ((n as bv8) << 4) as int / 16 == n
  {
  }

  lemma Digits(h: int, m: int, n: int)
    requires 0 <= h < 256 && 0 <= m < 256 && 0 <= n < 16
    ensures var u := h * 4096 + m * 16 + n; u / 4096 == h && u / 16 % 256 == m && u % 16 == n
  {
    var u := h * 4096 + m * 16 + n;
    assert u / 16 == h * 256 + m;
    assert (h * 256 + m) % 256 == m;
  }

  /** Decoding recovers every count an output block can carry. */
  lemma DecodeEncode(cx: int, cy: int, cz: int)
    requires -CenterOffset <= cx < CenterOffset && -CenterOffset <= cy < CenterOffset
    requires -CenterOffset <= cz < CenterOffset
    ensures Counts(EncodeFrame(cx, cy, cz)) == (cx, cy, cz)
    ensures Decode(EncodeFrame(cx, cy, cz)) ==
      Vec3(cx as real * MicroTeslaPerCount, cy as real * MicroTeslaPerCount, cz as real * MicroTeslaPerCount)
  {
    AxisRoundTrip(cx);
    AxisRoundTrip(cy);
    AxisRoundTrip(cz);
  }

  /** Re-encoding the decoded counts gives back the block, up to the unused low nibbles of bytes 6 to 8. */
  lemma EncodeDecode(f: Frame)
    ensures EncodeFrame(Counts(f).0, Counts(f).1, Counts(f).2)
         == [f[0], f[1], f[2], f[3], f[4], f[5], f[6] & 0xF0, f[7] & 0xF0, f[8] & 0xF0]
  {
    AxisBytes(f[0], f[1], f[6]);
    AxisBytes(f[2], f[3], f[7]);
    AxisBytes(f[4], f[5], f[8]);
    AssembleFrame(Counts(f).0, Counts(f).1, Counts(f).2,
      (f[0], f[1], f[6] & 0xF0), (f[2], f[3], f[7] & 0xF0), (f[4], f[5], f[8] & 0xF0));
  }

  lemma AssembleFrame(cx: int, cy: int, cz: int, xb: (bv8, bv8, bv8), yb: (bv8, bv8, bv8), zb: (bv8, bv8, bv8))
    requires -CenterOffset <= cx < CenterOffset && -CenterOffset <= cy < CenterOffset
    requires -CenterOffset <= cz < CenterOffset
    requires EncodeAxis(cx) == xb && EncodeAxis(cy) == yb && EncodeAxis(cz) == zb
    ensures EncodeFrame(cx, cy, cz) == [xb.0, xb.1, yb.0, yb.1, zb.0, zb.1, xb.2, yb.2, zb.2]
  {
  }

  lemma AxisBytes(hi: bv8, mid: bv8, lo: bv8)
    ensures EncodeAxis(AxisCount(hi, mid, lo)) == (hi, mid, lo & 0xF0)
  {
    var n := lo as int / 16;
    assert AxisCount(hi, mid, lo) == hi as int * 4096 + mid as int * 16 + n - CenterOffset;
    EncodeDigits(hi, mid, n);
    LowNibble(lo);
  }

  /** The encoder splits a count given by its digits back into those digits. */
  lemma EncodeDigits(hi: bv8, mid: bv8, n: int)
    requires 0 <= n < 16
    ensures EncodeAxis(hi as int * 4096 + mid as int * 16 + n - CenterOffset) == (hi, mid, (n as bv8) << 4)
  {
    EncodeDigitsOfInts(hi as int, mid as int, n);
    ByteRoundTrip(hi);
    ByteRoundTrip(mid);
  }

  lemma EncodeDigitsOfInts(h: int, m: int, n: int)
    requires 0 <= h < 256 && 0 <= m < 256 && 0 <= n < 16
    ensures EncodeAxis(h * 4096 + m * 16 + n - CenterOffset) == (h as bv8, m as bv8, (n as bv8) << 4)
  {
    Digits(h, m, n);
  }

  /** A byte read as an integer and converted back is the same byte. */
  lemma ByteRoundTrip(b: bv8)
    ensures (b as int) as bv8 == b
  {
    if b < 128 {
      if b < 64 { } else { }
    } else {
      if b < 192 { } else { }
    }
  }

  lemma LowNibble(lo: bv8)
    ensures ((lo as int / 16) as bv8) << 4 == lo & 0xF0
  {
    var n := lo >> 4;
    assert lo as int / 16 == n as int by { HighNibbleValue(lo); }
    ByteRoundTrip(n);
    assert n << 4 == lo & 0xF0;
  }

  lemma HighNibbleValue(b: bv8)
    ensures (b >> 4) as int == b as int / 16
  {
  }

  // ---------------------------------------------------------------- temperature

  /** `raw * 0.8 - 75` degrees Celsius: 0.8 C per count from -75 C. */
  function TemperatureCelsius(raw: bv8): (t: real)
    ensures -75.0 <= t <= 129.0
  {
    raw as real * 0.8 - 75.0
  }

  /** Each count is 0.8 C, so the formula is strictly increasing and raw 0 reads -75 C. */
  lemma TemperatureSteps(a: bv8, b: bv8)
    ensures TemperatureCelsius(0) == -75.0
    ensures TemperatureCelsius(b) - TemperatureCelsius(a) == (b as real - a as real) * 0.8
    ensures a < b ==> TemperatureCelsius(a) < TemperatureCelsius(b)
  {
  }

  // ---------------------------------------------------------------- control bits

  /** The data rates the `data_rate` setter accepts: 0 to 255 Hz, or 1000 Hz. */
  predicate ValidRate(value: int) {
    value == 1000 || 0 <= value <= 255
  }

  /** What the setter writes to the ODR register: 255 for 1000 Hz, the rate itself otherwise. */
  function OdrRegisterValue(value: int): (r: bv8)
    requires ValidRate(value)
    ensures value == 1000 ==> r == 255
    ensures value != 1000 ==> r as int == value
  {
    if value == 1000 then 255 else ByteOfInt(value); value as bv8
  }

  /** The CTRL2 cache after setting the rate: only the hpower bit changes, and it is on exactly for 1000 Hz. */
  function RateControl(ctrl2: bv8, value: int): (r: bv8)
    ensures (r & HighPowerBit != 0) <==> value == 1000
    ensures r & !HighPowerBit == ctrl2 & !HighPowerBit
  {
    if value == 1000 then ctrl2 | HighPowerBit else ctrl2 & !HighPowerBit
  }

  /** The CTRL2 cache after setting continuous mode: only cmm_en changes, and it ends equal to `on`. */
  function ContinuousControl(ctrl2: bv8, on: bool): (r: bv8)
    ensures (r & ContinuousBit != 0) <==> on
    ensures r & !ContinuousBit == ctrl2 & !ContinuousBit
  {
    if on then ctrl2 | ContinuousBit else ctrl2 & !ContinuousBit
  }

  /** The two control bits live apart: setting the rate keeps the mode and setting the mode keeps the rate bit. */
  lemma ControlBitsIndependent(ctrl2: bv8, value: int, on: bool)
    ensures RateControl(ctrl2, value) & ContinuousBit == ctrl2 & ContinuousBit
    ensures ContinuousControl(ctrl2, on) & HighPowerBit == ctrl2 & HighPowerBit
  {
  }

  /** The register writes of `reset`: the soft-reset bit, then the set and reset coil pulses. */
  const ResetWrites: seq<RegWrite> :=
    [RegWrite(CtrlReg1, 0x80), RegWrite(CtrlReg0, 0x08), RegWrite(CtrlReg0, 0x10)]

  /** The driver object: register caches, the 9-byte transfer buffer, and the trace of register writes. */
  class MMC5603 {
    var odrCache: int
    var ctrl2Cache: bv8
    /** Every control-register write sent to the chip, oldest first. */
    var writes: seq<RegWrite>
    const buffer: array<bv8>
    /** The `range` attribute a sensor script may assign; no method of the driver reads it. */
    var range: int

    ghost predicate Valid()
      reads this
    {
      buffer.Length == 9
    }

    /** `__init__` after the product-ID check: `reset()`, then a zeroed 9-byte buffer. */
    constructor ()
      ensures Valid() && fresh(buffer)
      ensures buffer[..] == [0, 0, 0, 0, 0, 0, 0, 0, 0]
      ensures odrCache == 0 && ctrl2Cache == 0 && range == 0
      ensures writes == ResetWrites
    {
      buffer := new bv8[9](_ => 0);
      writes := [];
      range := 0;
      new;
      Reset();
    }

    /** `data_rate`: the cached output data rate. */
    function DataRate(): int
      reads this
    {
      odrCache
    }

    /** `continuous_mode`: the cmm_en bit of the CTRL2 cache, 0 or 0x10. */
    function ContinuousMode(): (m: bv8)
      reads this
      ensures m == 0 || m == ContinuousBit
    {
      ctrl2Cache & ContinuousBit
    }

    /** The truth value of `continuous_mode`. */
    predicate IsContinuous()
      reads this
    {
      ContinuousMode() != 0
    }

    /** `reset`: soft reset, caches zeroed, then the set/reset coil pulses. */
    method Reset()
      modifies this
      ensures odrCache == 0 && ctrl2Cache == 0
      ensures DataRate() == 0 && !IsContinuous()
      ensures writes == old(writes) + ResetWrites
      ensures range == old(range)
    {
      writes := writes + [RegWrite(CtrlReg1, 0x80)];
      odrCache := 0;
      ctrl2Cache := 0;
      SetReset();
    }

    /** `set_reset`: the set pulse, then the reset pulse, on CTRL0. */
    method SetReset()
      modifies this`writes
      ensures writes == old(writes) + [RegWrite(CtrlReg0, 0x08), RegWrite(CtrlReg0, 0x10)]
    {
      writes := writes + [RegWrite(CtrlReg0, 0x08)];
      writes := writes + [RegWrite(CtrlReg0, 0x10)];
    }

    /** The `data_rate` setter: rejects other rates with ValueError and changes nothing then. */
    method SetDataRate(value: int) returns (o: Outcome)
      modifies this`odrCache, this`ctrl2Cache, this`writes
      ensures !ValidRate(value) ==> o == Fail(ValueError) && unchanged(this)
      ensures ValidRate(value) ==> (o == Pass
        && odrCache == value && DataRate() == value
        && ctrl2Cache == RateControl(old(ctrl2Cache), value)
        && writes == old(writes) + [RegWrite(OdrReg, OdrRegisterValue(value)), RegWrite(CtrlReg2, ctrl2Cache)])
    {
      if !ValidRate(value) {
        return Fail(ValueError);
      }
      odrCache := value;
      if value == 1000 {
        writes := writes + [RegWrite(OdrReg, 255)];
        ctrl2Cache := ctrl2Cache | HighPowerBit;
        writes := writes + [RegWrite(CtrlReg2, ctrl2Cache)];
      } else {
        writes := writes + [RegWrite(OdrReg, value as bv8)];
        ctrl2Cache := ctrl2Cache & !HighPowerBit;
        writes := writes + [RegWrite(CtrlReg2, ctrl2Cache)];
      }
      o := Pass;
    }

    /** The `continuous_mode` setter: turning it on first enables cmm_freq_en in CTRL0. */
    method SetContinuousMode(value: bool)
      modifies this`ctrl2Cache, this`writes
      ensures ctrl2Cache == ContinuousControl(old(ctrl2Cache), value)
      ensures IsContinuous() == value
      ensures writes == old(writes) + (if value then [RegWrite(CtrlReg0, 0x80)] else []) + [RegWrite(CtrlReg2, ctrl2Cache)]
    {
      if value {
        writes := writes + [RegWrite(CtrlReg0, 0x80)];
        ctrl2Cache := ctrl2Cache | ContinuousBit;
      } else {
        ctrl2Cache := ctrl2Cache & !ContinuousBit;
      }
      writes := writes + [RegWrite(CtrlReg2, ctrl2Cache)];
    }

    /**
     * `temperature`, given the raw temperature register the chip delivers: only in
     * single-shot mode, where it triggers a temperature measurement first.
     */
    method Temperature(rawTemp: bv8) returns (r: Result<real>)
      modifies this`writes
      ensures old(IsContinuous()) ==> r == Err(RuntimeError) && writes == old(writes)
      ensures !old(IsContinuous()) ==> (r == Ok(TemperatureCelsius(rawTemp))
        && writes == old(writes) + [RegWrite(CtrlReg0, 0x02)])
    {
      if IsContinuous() {
        return Err(RuntimeError);
      }
      writes := writes + [RegWrite(CtrlReg0, 0x02)];
      r := Ok(TemperatureCelsius(rawTemp));
    }

    /**
     * `magnetic`, given the output block the bus transfer delivers: in single-shot mode a
     * measurement is triggered first; the block fills the buffer and is decoded.
     */
    method Magnetic(frame: Frame) returns (v: Vec3)
      requires Valid()
      modifies this`writes, buffer
      ensures v == Decode(frame)
      ensures buffer[..] == frame
      ensures writes == old(writes) + (if IsContinuous() then [] else [RegWrite(CtrlReg0, 0x01)])
    {
      if !IsContinuous() {
        writes := writes + [RegWrite(CtrlReg0, 0x01)];
      }
      buffer[0] := OutXL;
      forall i | 0 <= i < 9 {
        buffer[i] := frame[i];
      }
      assert buffer[..] == frame;
      var x := Axis20Bits(buffer[0], buffer[1], buffer[6]) as int - CenterOffset;
      var y := Axis20Bits(buffer[2], buffer[3], buffer[7]) as int - CenterOffset;
      var z := Axis20Bits(buffer[4], buffer[5], buffer[8]) as int - CenterOffset;
      Axis20BitsIsSum(frame[0], frame[1], frame[6]);
      Axis20BitsIsSum(frame[2], frame[3], frame[7]);
      Axis20BitsIsSum(frame[4], frame[5], frame[8]);
      v := Vec3(x as real * MicroTeslaPerCount, y as real * MicroTeslaPerCount, z as real * MicroTeslaPerCount);
    }
  }

  /** `MMC5603(i2c)`: fails with RuntimeError unless the product-ID register reads 0x10. */
  method Open(productId: bv8) returns (r: Result<MMC5603>)
    ensures r.Err? <==> productId != ChipId
    ensures r.Err? ==> r.error == RuntimeError
    ensures r.Ok? ==> (fresh(r.value) && fresh(r.value.buffer) && r.value.Valid()
      && r.value.odrCache == 0 && r.value.ctrl2Cache == 0 && r.value.writes == ResetWrites)
  {
    if productId != ChipId {
      return Err(RuntimeError);
    }
    var dev := new MMC5603();
    r := Ok(dev);
  }
}
