/**
 * The TLV493D magnetometer driver: named bit fields of a 10-byte read buffer and a 4-byte
 * write buffer, the masked write-key update, the reserved-field copy and write-key sequence
 * of initialisation, and the 12-bit signed axis decode. Bus transfers are given as the bytes
 * the device returns (`ReadI2c`) or recorded as the buffers sent (`WriteI2c`).
 */
module Tlv493d {
  import opened Results
  import opened Oversample
  import opened Bytes

  /** A shift amount within a byte. */
  type Shift = n: bv8 | n < 8

  /** A table entry: byte of the buffer, mask of the field within it, and index of the mask's lowest bit. */
  datatype Field = Field(byteIndex: nat, mask: bv8, shift: Shift)

  datatype ReadKey =
    BX1 | BX2 | BY1 | BY2 | BZ1 | BZ2 | TEMP1 | TEMP2 | FRAMECOUNTER | CHANNEL | POWERDOWNFLAG | RES1 | RES2 | RES3

  datatype WriteKey =
    PARITY | ADDR | INT | FAST | LOWPOWER | TEMP_DISABLE | LP_PERIOD | POWERDOWN | RES1 | RES2 | RES3

  /** What one read transfer fills: the 10-byte read buffer. */
  type ReadFrame = s: seq<bv8> | |s| == 10 witness [0, 0, 0, 0, 0, 0, 0, 0, 0, 0]

  /** The 4-byte write buffer, as sent. */
  type WriteBytes = s: seq<bv8> | |s| == 4 witness [0, 0, 0, 0]

  /** `read_masks`. */
  function ReadLayout(k: ReadKey): (f: Field)
    ensures f.byteIndex < 10
  {
    match k
    case BX1 => Field(0, 0xFF, 0)
    case BX2 => Field(4, 0xF0, 4)
    case BY1 => Field(1, 0xFF, 0)
    case BY2 => Field(4, 0x0F, 0)
    case BZ1 => Field(2, 0xFF, 0)
    case BZ2 => Field(5, 0x0F, 0)
    case TEMP1 => Field(3, 0xF0, 4)
    case TEMP2 => Field(6, 0xFF, 0)
    case FRAMECOUNTER => Field(3, 0x0C, 2)
    case CHANNEL => Field(3, 0x03, 0)
    case POWERDOWNFLAG => Field(5, 0x10, 4)
    case RES1 => Field(7, 0x18, 3)
    case RES2 => Field(8, 0xFF, 0)
    case RES3 => Field(9, 0x1F, 0)
  }

  /** `write_masks`. */
  function WriteLayout(k: WriteKey): (f: Field)
    ensures f.byteIndex < 4
  {
    match k
    case PARITY => Field(1, 0x80, 7)
    case ADDR => Field(1, 0x60, 5)
    case INT => Field(1, 0x04, 2)
    case FAST => Field(1, 0x02, 1)
    case LOWPOWER => Field(1, 0x01, 0)
    case TEMP_DISABLE => Field(3, 0x80, 7)
    case LP_PERIOD => Field(3, 0x40, 6)
    case POWERDOWN => Field(3, 0x20, 5)
    case RES1 => Field(1, 0x18, 3)
    case RES2 => Field(2, 0xFF, 0)
    case RES3 => Field(3, 0x1F, 0)
  }

  /**
   * A field is a contiguous run of bits: `shift` is the index of the mask's lowest set bit,
   * and `mask >> shift` is a run of ones starting at bit 0.
   */
  predicate WellFormed(f: Field) {
    var run := f.mask >> f.shift;
    && f.mask != 0
    && run << f.shift == f.mask
    && run & 1 == 1
    && run & (run + 1) == 0
  }

  /** Every entry of both tables is a well-formed field. */
  lemma TablesWellFormed(rk: ReadKey, wk: WriteKey)
    ensures WellFormed(ReadLayout(rk))
    ensures WellFormed(WriteLayout(wk))
  {
  }

  /** Write fields that share a byte do not overlap, so writing one key never touches another. */
  lemma WriteMasksDisjoint(k1: WriteKey, k2: WriteKey)
    requires k1 != k2 && WriteLayout(k1).byteIndex == WriteLayout(k2).byteIndex
    ensures WriteLayout(k1).mask & WriteLayout(k2).mask == 0
  {
  }

  /** The write fields cover bytes 1 to 3 completely; byte 0 has no field. */
  lemma WriteMasksCover()
    ensures forall k :: WriteLayout(k).byteIndex != 0
    ensures WriteLayout(PARITY).mask | WriteLayout(ADDR).mask | WriteLayout(WriteKey.RES1).mask
          | WriteLayout(INT).mask | WriteLayout(FAST).mask | WriteLayout(LOWPOWER).mask == 0xFF
    ensures WriteLayout(WriteKey.RES2).mask == 0xFF
    ensures WriteLayout(TEMP_DISABLE).mask | WriteLayout(LP_PERIOD).mask | WriteLayout(POWERDOWN).mask
          | WriteLayout(WriteKey.RES3).mask == 0xFF
  {
  }

  // ---------------------------------------------------------------- field access on bytes

  /** `(byte & mask) >> shift`. */
  function FieldValue(b: bv8, f: Field): (v: bv8)
    ensures v <= f.mask >> f.shift
  {
    (b & f.mask) >> f.shift
  }

  /** `byte & ~mask | value << shift`: the value is shifted in without being masked. */
  function Put(b: bv8, f: Field, v: bv8): bv8 {
    (b & !f.mask) | (v << f.shift)
  }

  /**
   * The Python store `write_buffer[i] = byte & ~mask | value << shift` succeeds exactly when
   * the shifted value stays inside one byte; otherwise the bytearray raises ValueError.
   */
  predicate FitsByte(f: Field, v: int) {
    0 <= v <= (0xFF as bv8 >> f.shift) as int
  }

  /** `2^s`, the factor Python's `value << s` multiplies by. */
  function Weight(s: Shift): nat {
    if s == 0 then 1 else if s == 1 then 2 else if s == 2 then 4 else if s == 3 then 8
    else if s == 4 then 16 else if s == 5 then 32 else if s == 6 then 64 else 128
  }

  /** The largest value that fits a byte after a shift by `s`, and the first that does not. */
  lemma ByteTop(s: Shift)
    ensures (0xFF as bv8 >> s) as int * Weight(s) < 256
    ensures (0xFF as bv8 >> s) as int * Weight(s) + Weight(s) == 256
  {
    if s == 0 { } else if s == 1 { assert 0xFF as bv8 >> 1 == 127; } else if s == 2 { assert 0xFF as bv8 >> 2 == 63; }
    else if s == 3 { assert 0xFF as bv8 >> 3 == 31; } else if s == 4 { assert 0xFF as bv8 >> 4 == 15; }
    else if s == 5 { assert 0xFF as bv8 >> 5 == 7; } else if s == 6 { assert 0xFF as bv8 >> 6 == 3; }
    else { assert 0xFF as bv8 >> 7 == 1; }
  }

  /** A value that fits a byte after its shift is itself a byte. */
  lemma FitsByteIsByte(f: Field, v: int)
    requires FitsByte(f, v)
    ensures 0 <= v < 256
  {
    ByteBound(0xFF as bv8 >> f.shift);
  }

  lemma ByteBound(b: bv8) ensures b as int < 256 {}

  lemma MulLe(a: int, b: int, p: nat)
    requires a <= b
    ensures a * p <= b * p
  {
  }

  /**
   * `FitsByte` is the integer condition `0 <= v * 2^shift < 256` of the Python store, and
   * the byte shift then computes the integer shift exactly.
   */
  lemma FitsByteIsIntegerShift(f: Field, v: int)
    ensures FitsByte(f, v) <==> (0 <= v && v * Weight(f.shift) < 256)
    ensures FitsByte(f, v) ==> ((v as bv8) << f.shift) as int == v * Weight(f.shift)
  {
    var top := (0xFF as bv8 >> f.shift) as int;
    var p := Weight(f.shift);
    ByteTop(f.shift);
    assert FitsByte(f, v) <==> 0 <= v <= top;
    if 0 <= v {
      if v <= top { MulLe(v, top, p); }
      else { MulLe(top + 1, v, p); assert (top + 1) * p == top * p + p; }
    }
    if FitsByte(f, v) {
      FittingShift(f.shift, v);
    }
  }

  /** A byte shift that does not overflow is the integer multiplication by a power of two. */
  lemma FittingShift(s: Shift, v: int)
    requires 0 <= v <= (0xFF as bv8 >> s) as int
    ensures ((v as bv8) << s) as int == v * Weight(s)
  {
    var b := v as bv8;
    ByteOfInt(v);
    if s == 0 { NoShift(b); }
    else if s == 1 { assert 0xFF as bv8 >> 1 == 127; Shl1(b); }
    else if s == 2 { assert 0xFF as bv8 >> 2 == 63; Shl2(b); }
    else if s == 3 { assert 0xFF as bv8 >> 3 == 31; Shl3(b); }
    else if s == 4 { assert 0xFF as bv8 >> 4 == 15; Shl4(b); }
    else if s == 5 { assert 0xFF as bv8 >> 5 == 7; Shl5(b); }
    else if s == 6 { assert 0xFF as bv8 >> 6 == 3; Shl6(b); }
    else { assert 0xFF as bv8 >> 7 == 1; Shl7(b); }
  }

  lemma NoShift(b: bv8) ensures b << 0 == b {}
  lemma Shl1(b: bv8) requires b as int < 128 ensures (b << 1) as int == b as int * 2 {}
  lemma Shl2(b: bv8) requires b as int < 64 ensures (b << 2) as int == b as int * 4 {}
  lemma Shl3(b: bv8) requires b as int < 32 ensures (b << 3) as int == b as int * 8 {}
  lemma Shl4(b: bv8) requires b as int < 16 ensures (b << 4) as int == b as int * 16 {}
  lemma Shl5(b: bv8) requires b as int < 8 ensures (b << 5) as int == b as int * 32 {}
  lemma Shl6(b: bv8) requires b as int < 4 ensures (b << 6) as int == b as int * 64 {}
  lemma Shl7(b: bv8) requires b as int < 2 ensures (b << 7) as int == b as int * 128 {}

  /** Round trip: a value that fits its field reads back unchanged after it is written. */
  lemma PutThenGet(b: bv8, f: Field, v: bv8)
    requires WellFormed(f) && v <= f.mask >> f.shift
    ensures FieldValue(Put(b, f, v), f) == v
  {
  }

  /** A value that fits its field changes only the field's bits. */
  lemma PutKeepsOtherBits(b: bv8, f: Field, v: bv8)
    requires WellFormed(f) && v <= f.mask >> f.shift
    ensures Put(b, f, v) & !f.mask == b & !f.mask
    ensures Put(b, f, v) & f.mask == v << f.shift
  {
  }

  /** Writing a fitting value into one field leaves a disjoint field of the same byte as it was. */
  lemma PutKeepsDisjointField(b: bv8, f: Field, g: Field, v: bv8)
    requires WellFormed(f) && v <= f.mask >> f.shift && f.mask & g.mask == 0
    ensures FieldValue(Put(b, f, v), g) == FieldValue(b, g)
  {
    PutKeepsOtherBits(b, f, v);
    SameOutsideMask(Put(b, f, v), b, f.mask, g);
  }

  /** Bytes that agree outside `m` agree on every field disjoint from `m`. */
  lemma SameOutsideMask(x: bv8, y: bv8, m: bv8, g: Field)
    requires x & !m == y & !m && m & g.mask == 0
    ensures FieldValue(x, g) == FieldValue(y, g)
  {
    assert x & g.mask == y & g.mask;
  }

  /**
   * The value is not masked: an ADDR value of 4 to 7 fits the byte but not the 2-bit field,
   * and its top bit lands in PARITY.
   */
  lemma AddrOverflowSpillsIntoParity(b: bv8, v: bv8)
    requires 4 <= v < 8
    ensures FieldValue(Put(b, WriteLayout(ADDR), v), WriteLayout(ADDR)) == v & 3
    ensures FieldValue(Put(b, WriteLayout(ADDR), v), WriteLayout(PARITY)) == 1
  {
  }

  // ---------------------------------------------------------------- buffers

  /** `_get_read_key` on a read buffer. */
  function ReadValue(r: ReadFrame, k: ReadKey): bv8 {
    FieldValue(r[ReadLayout(k).byteIndex], ReadLayout(k))
  }

  /** The value of a write key in a write buffer. */
  function WriteValue(w: WriteBytes, k: WriteKey): bv8 {
    FieldValue(w[WriteLayout(k).byteIndex], WriteLayout(k))
  }

  /** `_set_write_key` on a write buffer, for a value that fits the byte. */
  function SetKey(w: WriteBytes, k: WriteKey, v: bv8): (w': WriteBytes)
    requires FitsByte(WriteLayout(k), v as int)
  {
    var f := WriteLayout(k);
    w[f.byteIndex := Put(w[f.byteIndex], f, v)]
  }

  /** Setting a key to a fitting value makes it read back, and leaves every other key and byte 0 as they were. */
  lemma SetKeyFields(w: WriteBytes, k: WriteKey, v: bv8, other: WriteKey)
    requires v <= WriteLayout(k).mask >> WriteLayout(k).shift
    ensures FitsByte(WriteLayout(k), v as int)
    ensures WriteValue(SetKey(w, k, v), k) == v
    ensures other != k ==> WriteValue(SetKey(w, k, v), other) == WriteValue(w, other)
    ensures SetKey(w, k, v)[0] == w[0]
  {
    FieldFitsByte(WriteLayout(k), v);
    SetKeyReadsBack(w, k, v);
    if other != k {
      SetKeyKeepsOther(w, k, v, other);
    }
  }

  /** A value within a well-formed write field fits the byte after its shift. */
  lemma FieldFitsByte(f: Field, v: bv8)
    requires v <= f.mask >> f.shift
    ensures FitsByte(f, v as int)
  {
    assert f.mask >> f.shift <= 0xFF as bv8 >> f.shift;
  }

  lemma SetKeyReadsBack(w: WriteBytes, k: WriteKey, v: bv8)
    requires v <= WriteLayout(k).mask >> WriteLayout(k).shift
    requires FitsByte(WriteLayout(k), v as int)
    ensures WriteValue(SetKey(w, k, v), k) == v
  {
    var f := WriteLayout(k);
    TablesWellFormed(BX1, k);
    PutThenGet(w[f.byteIndex], f, v);
  }

  lemma SetKeyKeepsOther(w: WriteBytes, k: WriteKey, v: bv8, other: WriteKey)
    requires v <= WriteLayout(k).mask >> WriteLayout(k).shift
    requires FitsByte(WriteLayout(k), v as int)
    requires other != k
    ensures WriteValue(SetKey(w, k, v), other) == WriteValue(w, other)
  {
    var f := WriteLayout(k);
    if WriteLayout(other).byteIndex == f.byteIndex {
      TablesWellFormed(BX1, k);
      WriteMasksDisjoint(k, other);
      PutKeepsDisjointField(w[f.byteIndex], f, WriteLayout(other), v);
    }
  }

  /** The field view of a write buffer is complete: byte 0 and the write keys determine all four bytes. */
  lemma FieldsDetermineBuffer(w1: WriteBytes, w2: WriteBytes)
    requires w1[0] == w2[0]
    requires forall k :: WriteValue(w1, k) == WriteValue(w2, k)
    ensures w1 == w2
  {
    Byte1FromKeys(w1, w2);
    Byte2FromKeys(w1, w2);
    Byte3FromKeys(w1, w2);
    assert forall i | 0 <= i < 4 :: w1[i] == w2[i];
  }

  lemma Byte1FromKeys(w1: WriteBytes, w2: WriteBytes)
    requires forall k :: WriteValue(w1, k) == WriteValue(w2, k)
    ensures w1[1] == w2[1]
  {
    assert WriteValue(w1, PARITY) == WriteValue(w2, PARITY) && WriteValue(w1, ADDR) == WriteValue(w2, ADDR);
    assert WriteValue(w1, INT) == WriteValue(w2, INT) && WriteValue(w1, FAST) == WriteValue(w2, FAST);
    assert WriteValue(w1, LOWPOWER) == WriteValue(w2, LOWPOWER);
    assert WriteValue(w1, WriteKey.RES1) == WriteValue(w2, WriteKey.RES1);
    Byte1Determined(w1, w2);
  }

  lemma Byte2FromKeys(w1: WriteBytes, w2: WriteBytes)
    requires forall k :: WriteValue(w1, k) == WriteValue(w2, k)
    ensures w1[2] == w2[2]
  {
    assert WriteValue(w1, WriteKey.RES2) == WriteValue(w2, WriteKey.RES2);
  }

  lemma Byte3FromKeys(w1: WriteBytes, w2: WriteBytes)
    requires forall k :: WriteValue(w1, k) == WriteValue(w2, k)
    ensures w1[3] == w2[3]
  {
    assert WriteValue(w1, TEMP_DISABLE) == WriteValue(w2, TEMP_DISABLE);
    assert WriteValue(w1, LP_PERIOD) == WriteValue(w2, LP_PERIOD);
    assert WriteValue(w1, POWERDOWN) == WriteValue(w2, POWERDOWN);
    assert WriteValue(w1, WriteKey.RES3) == WriteValue(w2, WriteKey.RES3);
    Byte3Determined(w1, w2);
  }

  lemma Byte1Determined(w1: WriteBytes, w2: WriteBytes)
    requires WriteValue(w1, PARITY) == WriteValue(w2, PARITY) && WriteValue(w1, ADDR) == WriteValue(w2, ADDR)
    requires WriteValue(w1, INT) == WriteValue(w2, INT) && WriteValue(w1, FAST) == WriteValue(w2, FAST)
    requires WriteValue(w1, LOWPOWER) == WriteValue(w2, LOWPOWER)
    requires WriteValue(w1, WriteKey.RES1) == WriteValue(w2, WriteKey.RES1)
    ensures w1[1] == w2[1]
  {
    FieldsDetermineByte1(w1[1], w2[1]);
  }

  lemma Byte3Determined(w1: WriteBytes, w2: WriteBytes)
    requires WriteValue(w1, TEMP_DISABLE) == WriteValue(w2, TEMP_DISABLE)
    requires WriteValue(w1, LP_PERIOD) == WriteValue(w2, LP_PERIOD)
    requires WriteValue(w1, POWERDOWN) == WriteValue(w2, POWERDOWN)
    requires WriteValue(w1, WriteKey.RES3) == WriteValue(w2, WriteKey.RES3)
    ensures w1[3] == w2[3]
  {
    FieldsDetermineByte3(w1[3], w2[3]);
  }

  lemma FieldsDetermineByte1(a: bv8, b: bv8)
    requires (a & 0x80) >> 7 == (b & 0x80) >> 7 && (a & 0x60) >> 5 == (b & 0x60) >> 5
    requires (a & 0x18) >> 3 == (b & 0x18) >> 3 && (a & 0x04) >> 2 == (b & 0x04) >> 2
    requires (a & 0x02) >> 1 == (b & 0x02) >> 1 && a & 0x01 == b & 0x01
    ensures a == b
  {
  }

  lemma FieldsDetermineByte3(a: bv8, b: bv8)
    requires (a & 0x80) >> 7 == (b & 0x80) >> 7 && (a & 0x40) >> 6 == (b & 0x40) >> 6
    requires (a & 0x20) >> 5 == (b & 0x20) >> 5 && a & 0x1F == b & 0x1F
    ensures a == b
  {
  }

  /** The keys `_setup_write_buffer` copies from the read buffer, in order: RES1, RES2, RES3. */
  const ReservedCount: nat := 3

  function ReservedRead(i: nat): ReadKey
    requires i < ReservedCount
  {
    if i == 0 then ReadKey.RES1 else if i == 1 then ReadKey.RES2 else ReadKey.RES3
  }

  function ReservedWrite(i: nat): WriteKey
    requires i < ReservedCount
  {
    if i == 0 then WriteKey.RES1 else if i == 1 then WriteKey.RES2 else WriteKey.RES3
  }

  /** A reserved read field always fits the write field of the same name. */
  lemma ReservedFits(r: ReadFrame, i: nat)
    requires i < ReservedCount
    ensures ReadValue(r, ReservedRead(i)) <= WriteLayout(ReservedWrite(i)).mask >> WriteLayout(ReservedWrite(i)).shift
    ensures FitsByte(WriteLayout(ReservedWrite(i)), ReadValue(r, ReservedRead(i)) as int)
  {
  }

  /** The write buffer after the first `n` reserved keys have been copied from `r`. */
  function CopyReserved(w: WriteBytes, r: ReadFrame, n: nat): WriteBytes
    requires n <= ReservedCount
  {
    if n == 0 then w
    else
      ReservedFits(r, n - 1);
      SetKey(CopyReserved(w, r, n - 1), ReservedWrite(n - 1), ReadValue(r, ReservedRead(n - 1)))
  }

  /** The copy is the three reserved keys set in order. */
  lemma CopyReservedUnfold(w: WriteBytes, r: ReadFrame)
    ensures FitsByte(WriteLayout(WriteKey.RES1), ReadValue(r, ReadKey.RES1) as int)
    ensures FitsByte(WriteLayout(WriteKey.RES2), ReadValue(r, ReadKey.RES2) as int)
    ensures FitsByte(WriteLayout(WriteKey.RES3), ReadValue(r, ReadKey.RES3) as int)
    ensures CopyReserved(w, r, 3) ==
      SetKey(SetKey(SetKey(w, WriteKey.RES1, ReadValue(r, ReadKey.RES1)), WriteKey.RES2, ReadValue(r, ReadKey.RES2)),
             WriteKey.RES3, ReadValue(r, ReadKey.RES3))
  {
    ReservedFits(r, 0);
    ReservedFits(r, 1);
    ReservedFits(r, 2);
    assert CopyReserved(w, r, 1) == SetKey(w, WriteKey.RES1, ReadValue(r, ReadKey.RES1));
  }

  /** After the copy each reserved write field holds the read field, and the other keys and byte 0 are unchanged. */
  lemma CopyReservedFields(w: WriteBytes, r: ReadFrame, k: WriteKey)
    ensures var c := CopyReserved(w, r, 3);
      && c[0] == w[0]
      && WriteValue(c, WriteKey.RES1) == ReadValue(r, ReadKey.RES1)
      && WriteValue(c, WriteKey.RES2) == ReadValue(r, ReadKey.RES2)
      && WriteValue(c, WriteKey.RES3) == ReadValue(r, ReadKey.RES3)
      && (k != WriteKey.RES1 && k != WriteKey.RES2 && k != WriteKey.RES3 ==> WriteValue(c, k) == WriteValue(w, k))
  {
    CopyReservedUnfold(w, r);
    ReservedFits(r, 0);
    ReservedFits(r, 1);
    ReservedFits(r, 2);
    ReservedChain(w, ReadValue(r, ReadKey.RES1), ReadValue(r, ReadKey.RES2), ReadValue(r, ReadKey.RES3), k);
  }

  lemma ReservedChain(w: WriteBytes, v1: bv8, v2: bv8, v3: bv8, k: WriteKey)
    requires v1 <= 3 && v3 <= 0x1F
    ensures FitsByte(WriteLayout(WriteKey.RES1), v1 as int)
    ensures FitsByte(WriteLayout(WriteKey.RES2), v2 as int)
    ensures FitsByte(WriteLayout(WriteKey.RES3), v3 as int)
    ensures var c := SetKey(SetKey(SetKey(w, WriteKey.RES1, v1), WriteKey.RES2, v2), WriteKey.RES3, v3);
      && c[0] == w[0]
      && WriteValue(c, WriteKey.RES1) == v1
      && WriteValue(c, WriteKey.RES2) == v2
      && WriteValue(c, WriteKey.RES3) == v3
      && (k != WriteKey.RES1 && k != WriteKey.RES2 && k != WriteKey.RES3 ==> WriteValue(c, k) == WriteValue(w, k))
  {
    var c1 := SetKey(w, WriteKey.RES1, v1);
    var c2 := SetKey(c1, WriteKey.RES2, v2);
    var c3 := SetKey(c2, WriteKey.RES3, v3);
    assert WriteValue(c3, WriteKey.RES1) == v1 by {
      SetKeyFields(w, WriteKey.RES1, v1, WriteKey.RES1);
      SetKeyFields(c1, WriteKey.RES2, v2, WriteKey.RES1);
      SetKeyFields(c2, WriteKey.RES3, v3, WriteKey.RES1);
    }
    assert WriteValue(c3, WriteKey.RES2) == v2 by {
      SetKeyFields(c1, WriteKey.RES2, v2, WriteKey.RES2);
      SetKeyFields(c2, WriteKey.RES3, v3, WriteKey.RES2);
    }
    assert WriteValue(c3, WriteKey.RES3) == v3 by {
      SetKeyFields(c2, WriteKey.RES3, v3, WriteKey.RES3);
    }
    assert c3[0] == w[0] && (k != WriteKey.RES1 && k != WriteKey.RES2 && k != WriteKey.RES3 ==> WriteValue(c3, k) == WriteValue(w, k)) by {
      SetKeyFields(w, WriteKey.RES1, v1, k);
      SetKeyFields(c1, WriteKey.RES2, v2, k);
      SetKeyFields(c2, WriteKey.RES3, v3, k);
    }
  }

  /** The write buffer `__init__` sends: reserved fields copied, then ADDR, PARITY, FAST and LOWPOWER set. */
  function InitialWriteBuffer(r: ReadFrame, addr: bv8): WriteBytes
    requires addr < 8
  {
    var w := CopyReserved([0, 0, 0, 0], r, 3);
    var w1 := SetKey(w, ADDR, addr);
    var w2 := SetKey(w1, PARITY, 1);
    var w3 := SetKey(w2, FAST, 1);
    SetKey(w3, LOWPOWER, 1)
  }

  /**
   * After initialisation: byte 0 is 0, the reserved fields echo the read buffer, ADDR holds
   * the address register value (its low two bits), PARITY, FAST and LOWPOWER are 1, and
   * INT, TEMP_DISABLE, LP_PERIOD and POWERDOWN are 0.
   */
  lemma InitialWriteBufferFields(r: ReadFrame, addr: bv8)
    requires addr < 8
    ensures var w := InitialWriteBuffer(r, addr);
      && w[0] == 0
      && WriteValue(w, WriteKey.RES1) == ReadValue(r, ReadKey.RES1)
      && WriteValue(w, WriteKey.RES2) == ReadValue(r, ReadKey.RES2)
      && WriteValue(w, WriteKey.RES3) == ReadValue(r, ReadKey.RES3)
      && WriteValue(w, ADDR) == addr & 3
      && WriteValue(w, PARITY) == 1 && WriteValue(w, FAST) == 1 && WriteValue(w, LOWPOWER) == 1
      && WriteValue(w, INT) == 0 && WriteValue(w, TEMP_DISABLE) == 0
      && WriteValue(w, LP_PERIOD) == 0 && WriteValue(w, POWERDOWN) == 0
  {
    var w0: WriteBytes := [0, 0, 0, 0];
    InitialControlFields(r, addr);
    InitialOtherFields(r, addr);
    CopyReservedFields(w0, r, INT);
    CopyReservedFields(w0, r, TEMP_DISABLE);
    CopyReservedFields(w0, r, LP_PERIOD);
    CopyReservedFields(w0, r, POWERDOWN);
    ZeroBufferFields();
  }

  lemma ZeroBufferFields()
    ensures WriteValue([0, 0, 0, 0], INT) == 0 && WriteValue([0, 0, 0, 0], TEMP_DISABLE) == 0
    ensures WriteValue([0, 0, 0, 0], LP_PERIOD) == 0 && WriteValue([0, 0, 0, 0], POWERDOWN) == 0
  {
  }

  /** The initial buffer is the reserved copy with byte 1 passed through the four control stores. */
  lemma InitialBytes(r: ReadFrame, addr: bv8)
    requires addr < 8
    ensures var c := CopyReserved([0, 0, 0, 0], r, 3); var w := InitialWriteBuffer(r, addr);
      && w[0] == c[0] && w[2] == c[2] && w[3] == c[3]
      && w[1] == Put(Put(Put(Put(c[1], WriteLayout(ADDR), addr), WriteLayout(PARITY), 1), WriteLayout(FAST), 1),
                     WriteLayout(LOWPOWER), 1)
  {
  }

  /** The byte-1 keys of the initial buffer: the four control stores, with RES1 and INT as the copy left them. */
  lemma InitialControlFields(r: ReadFrame, addr: bv8)
    requires addr < 8
    ensures var c := CopyReserved([0, 0, 0, 0], r, 3); var w := InitialWriteBuffer(r, addr);
      && WriteValue(w, ADDR) == addr & 3
      && WriteValue(w, PARITY) == 1 && WriteValue(w, FAST) == 1 && WriteValue(w, LOWPOWER) == 1
      && WriteValue(w, WriteKey.RES1) == WriteValue(c, WriteKey.RES1)
      && WriteValue(w, INT) == WriteValue(c, INT)
  {
    var c := CopyReserved([0, 0, 0, 0], r, 3);
    var w := InitialWriteBuffer(r, addr);
    InitialBytes(r, addr);
    InitialControlByte(c[1], addr);
    ByteOneKeys(w, Put(Put(Put(Put(c[1], WriteLayout(ADDR), addr), WriteLayout(PARITY), 1), WriteLayout(FAST), 1),
                       WriteLayout(LOWPOWER), 1));
    ByteOneKeys(c, c[1]);
  }

  /** The byte-1 keys of a write buffer are fields of its byte 1. */
  lemma ByteOneKeys(w: WriteBytes, b: bv8)
    requires w[1] == b
    ensures WriteValue(w, ADDR) == FieldValue(b, WriteLayout(ADDR))
    ensures WriteValue(w, PARITY) == FieldValue(b, WriteLayout(PARITY))
    ensures WriteValue(w, FAST) == FieldValue(b, WriteLayout(FAST))
    ensures WriteValue(w, LOWPOWER) == FieldValue(b, WriteLayout(LOWPOWER))
    ensures WriteValue(w, WriteKey.RES1) == FieldValue(b, WriteLayout(WriteKey.RES1))
    ensures WriteValue(w, INT) == FieldValue(b, WriteLayout(INT))
  {
  }

  /** Bytes 0, 2 and 3 of the initial buffer, and so their keys, are as the copy left them. */
  lemma InitialOtherFields(r: ReadFrame, addr: bv8)
    requires addr < 8
    ensures var c := CopyReserved([0, 0, 0, 0], r, 3); var w := InitialWriteBuffer(r, addr);
      && w[0] == c[0]
      && WriteValue(w, WriteKey.RES2) == WriteValue(c, WriteKey.RES2)
      && WriteValue(w, WriteKey.RES3) == WriteValue(c, WriteKey.RES3)
      && WriteValue(w, TEMP_DISABLE) == WriteValue(c, TEMP_DISABLE)
      && WriteValue(w, LP_PERIOD) == WriteValue(c, LP_PERIOD)
      && WriteValue(w, POWERDOWN) == WriteValue(c, POWERDOWN)
  {
    InitialBytes(r, addr);
  }

  /** Byte 1 after ADDR, PARITY, FAST and LOWPOWER are set in that order; RES1 and INT keep their bits. */
  lemma InitialControlByte(b: bv8, addr: bv8)
    requires addr < 8
    ensures var p := Put(Put(Put(Put(b, WriteLayout(ADDR), addr), WriteLayout(PARITY), 1), WriteLayout(FAST), 1),
                         WriteLayout(LOWPOWER), 1);
      && FieldValue(p, WriteLayout(ADDR)) == addr & 3
      && FieldValue(p, WriteLayout(PARITY)) == 1
      && FieldValue(p, WriteLayout(FAST)) == 1
      && FieldValue(p, WriteLayout(LOWPOWER)) == 1
      && FieldValue(p, WriteLayout(WriteKey.RES1)) == FieldValue(b, WriteLayout(WriteKey.RES1))
      && FieldValue(p, WriteLayout(INT)) == FieldValue(b, WriteLayout(INT))
  {
  }

  // ---------------------------------------------------------------- axis decode

  predicate IsByte(n: int) {
    0 <= n < 256
  }

  /** `struct.unpack_from(">h", bytearray([top, bottom]))`: a big-endian two's-complement 16-bit integer. */
  function Signed16(top: int, bottom: int): (v: int)
    requires IsByte(top) && IsByte(bottom)
    ensures -0x8000 <= v < 0x8000
  {
    var u := top * 256 + bottom;
    if u >= 0x8000 then u - 0x1_0000 else u
  }

  /** `binval >> 4` on the signed value: Python rounds toward minus infinity, as Dafny's division by 16 does. */
  function Count(top: int, bottom: int): int
    requires IsByte(top) && IsByte(bottom)
  {
    Signed16(top, bottom) / 16
  }

  /** `_unpack_and_scale`: `binval * 0.098 * 1000`, in exact reals. */
  function UnpackAndScale(top: int, bottom: int): real
    requires IsByte(top) && IsByte(bottom)
  {
    Count(top, bottom) as real * 0.098 * 1000.0
  }

  /** The two's-complement reading of a 12-bit pattern. */
  function SignExtend12(u: int): int {
    if u >= 0x800 then u - 0x1000 else u
  }

  /**
   * The shift drops the low nibble of `bottom`: the count is the signed 12-bit value made of
   * `top` and the high nibble of `bottom`, it lies in [-2048, 2047], and the scaled value is 98 counts.
   */
  lemma CountIsTwelveBit(top: int, bottom: int)
    requires IsByte(top) && IsByte(bottom)
    ensures Count(top, bottom) == SignExtend12(top * 16 + bottom / 16)
    ensures -2048 <= Count(top, bottom) <= 2047
    ensures UnpackAndScale(top, bottom) == Count(top, bottom) as real * 98.0
  {
    var u := top * 16 + bottom / 16;
    assert top * 256 + bottom == 16 * u + bottom % 16;
    if top * 256 + bottom >= 0x8000 {
      assert u >= 0x800;
      assert Signed16(top, bottom) == 16 * (u - 0x1000) + bottom % 16;
    } else {
      assert u < 0x800;
    }
  }

  /** The worked example: (0x7F, 0x00) decodes to 2032 counts, that is 2032 * 98. */
  lemma UnpackExample()
    ensures Count(0x7F, 0x00) == 2032
    ensures UnpackAndScale(0x7F, 0x00) == 2032.0 * 98.0
  {
    CountIsTwelveBit(0x7F, 0x00);
  }

  /** The two bytes that carry a 12-bit count, with the low nibble of `bottom` zero. */
  function EncodeCount(c: int): (bytes: (int, int))
    requires -2048 <= c <= 2047
    ensures IsByte(bytes.0) && IsByte(bytes.1) && bytes.1 % 16 == 0
  {
    var u := if c < 0 then c + 0x1000 else c;
    (u / 16, u % 16 * 16)
  }

  /** Every 12-bit count is decoded from its encoding. */
  lemma DecodeEncodeCount(c: int)
    requires -2048 <= c <= 2047
    ensures Count(EncodeCount(c).0, EncodeCount(c).1) == c
  {
    var u := if c < 0 then c + 0x1000 else c;
    var top, bottom := EncodeCount(c).0, EncodeCount(c).1;
    CountIsTwelveBit(top, bottom);
    assert top * 16 + bottom / 16 == u;
  }

  /** Bytes whose low nibble is clear are recovered from their count: the decode loses only that nibble. */
  lemma EncodeDecodeCount(top: int, bottom: int)
    requires IsByte(top) && IsByte(bottom) && bottom % 16 == 0
    ensures -2048 <= Count(top, bottom) <= 2047
    ensures EncodeCount(Count(top, bottom)) == (top, bottom)
  {
    CountIsTwelveBit(top, bottom);
    var u := top * 16 + bottom / 16;
    assert u / 16 == top && u % 16 * 16 == bottom;
  }

  lemma NibbleShiftValue(n: bv8)
    requires n < 16
    ensures (n << 4) as int == n as int * 16
  {
  }

  /** `(nibble << 4) & 0xFF` on Python integers is the byte shift. */
  lemma BottomByte(n: bv8)
    requires n < 16
    ensures (n as int * 16) % 256 == (n << 4) as int
  {
    NibbleShiftValue(n);
  }

  /** One axis of `magnetic`: the top byte, and the nibble moved to the high half of the bottom byte. */
  function AxisDecode(top: bv8, nibble: bv8): real {
    UnpackAndScale(top as int, (nibble << 4) as int)
  }

  /** `magnetic` on a read buffer. */
  function DecodeFrame(r: ReadFrame): Vec3 {
    Vec3(AxisDecode(ReadValue(r, BX1), ReadValue(r, BX2)),
         AxisDecode(ReadValue(r, BY1), ReadValue(r, BY2)),
         AxisDecode(ReadValue(r, BZ1), ReadValue(r, BZ2)))
  }

  /** An axis is 98 times the signed 12-bit count of its top byte and nibble. */
  lemma AxisValue(top: bv8, nibble: bv8)
    requires nibble < 16
    ensures AxisDecode(top, nibble) == 98.0 * SignExtend12(top as int * 16 + nibble as int) as real
    ensures -2048.0 * 98.0 <= AxisDecode(top, nibble) <= 2047.0 * 98.0
  {
    NibbleShiftValue(nibble);
    AxisValueOfInts(top as int, nibble as int);
  }

  lemma AxisValueOfInts(top: int, nibble: int)
    requires IsByte(top) && 0 <= nibble < 16
    ensures IsByte(nibble * 16)
    ensures UnpackAndScale(top, nibble * 16) == 98.0 * SignExtend12(top * 16 + nibble) as real
    ensures -2048.0 * 98.0 <= UnpackAndScale(top, nibble * 16) <= 2047.0 * 98.0
  {
    CountIsTwelveBit(top, nibble * 16);
    assert nibble * 16 / 16 == nibble;
  }

  /**
   * Layout of the decode: x is the 12-bit count of byte 0 and the high nibble of byte 4, y of
   * byte 1 and the low nibble of byte 4, z of byte 2 and the low nibble of byte 5; each axis is
   * 98 times a count in [-2048, 2047].
   */
  lemma DecodeFrameLayout(r: ReadFrame)
    ensures DecodeFrame(r).x == 98.0 * SignExtend12(r[0] as int * 16 + (r[4] >> 4) as int) as real
    ensures DecodeFrame(r).y == 98.0 * SignExtend12(r[1] as int * 16 + (r[4] & 0x0F) as int) as real
    ensures DecodeFrame(r).z == 98.0 * SignExtend12(r[2] as int * 16 + (r[5] & 0x0F) as int) as real
    ensures -2048.0 * 98.0 <= DecodeFrame(r).x <= 2047.0 * 98.0
    ensures -2048.0 * 98.0 <= DecodeFrame(r).y <= 2047.0 * 98.0
    ensures -2048.0 * 98.0 <= DecodeFrame(r).z <= 2047.0 * 98.0
  {
    XLayout(r);
    YLayout(r);
    ZLayout(r);
  }

  lemma XLayout(r: ReadFrame)
    ensures DecodeFrame(r).x == 98.0 * SignExtend12(r[0] as int * 16 + (r[4] >> 4) as int) as real
    ensures -2048.0 * 98.0 <= DecodeFrame(r).x <= 2047.0 * 98.0
  {
    var n := ReadValue(r, BX2);
    assert n == r[4] >> 4 && n < 16 && ReadValue(r, BX1) == r[0];
    AxisValue(r[0], n);
  }

  lemma YLayout(r: ReadFrame)
    ensures DecodeFrame(r).y == 98.0 * SignExtend12(r[1] as int * 16 + (r[4] & 0x0F) as int) as real
    ensures -2048.0 * 98.0 <= DecodeFrame(r).y <= 2047.0 * 98.0
  {
    var n := ReadValue(r, BY2);
    assert n == r[4] & 0x0F && n < 16 && ReadValue(r, BY1) == r[1];
    AxisValue(r[1], n);
  }

  lemma ZLayout(r: ReadFrame)
    ensures DecodeFrame(r).z == 98.0 * SignExtend12(r[2] as int * 16 + (r[5] & 0x0F) as int) as real
    ensures -2048.0 * 98.0 <= DecodeFrame(r).z <= 2047.0 * 98.0
  {
    var n := ReadValue(r, BZ2);
    assert n == r[5] & 0x0F && n < 16 && ReadValue(r, BZ1) == r[2];
    AxisValue(r[2], n);
  }

  // ---------------------------------------------------------------- the driver

  /** The driver: its two buffers, the write buffers sent on the bus so far, and the `range` attribute callers may assign. */
  class TLV493D {
    const readBuffer: array<bv8>
    const writeBuffer: array<bv8>
    var sent: seq<WriteBytes>
    var range: int

    ghost predicate Valid()
      reads this
    {
      readBuffer.Length == 10 && writeBuffer.Length == 4 && readBuffer != writeBuffer
    }

    /** The read buffer's contents. */
    function ReadBytes(): ReadFrame
      reads this, readBuffer
      requires Valid()
    {
      readBuffer[..]
    }

    /** The write buffer's contents. */
    function WriteBuffer(): WriteBytes
      reads this, writeBuffer
      requires Valid()
    {
      writeBuffer[..]
    }

    /** `bytearray(10)` and `bytearray(4)`: both buffers start zeroed and nothing has been sent. */
    constructor()
      ensures Valid() && fresh(readBuffer) && fresh(writeBuffer)
      ensures readBuffer[..] == [0, 0, 0, 0, 0, 0, 0, 0, 0, 0] && writeBuffer[..] == [0, 0, 0, 0]
      ensures sent == [] && range == 0
    {
      readBuffer := new bv8[10](_ => 0);
      writeBuffer := new bv8[4](_ => 0);
      sent := [];
      range := 0;
    }

    /** `_read_i2c`: the device fills the read buffer with `frame`. */
    method ReadI2c(frame: ReadFrame)
      requires Valid()
      modifies readBuffer
      ensures readBuffer[..] == frame
    {
      forall i | 0 <= i < 10 {
        readBuffer[i] := frame[i];
      }
    }

    /** `_write_i2c`: the current write buffer goes on the bus. */
    method WriteI2c()
      requires Valid()
      modifies this`sent
      ensures sent == old(sent) + [writeBuffer[..]]
    {
      sent := sent + [writeBuffer[..]];
    }

    /** `_get_read_key`: a field of the read buffer, no wider than its mask. */
    function GetReadKey(k: ReadKey): (v: int)
      reads this, readBuffer
      requires Valid()
      ensures 0 <= v <= (ReadLayout(k).mask >> ReadLayout(k).shift) as int
      ensures v == ReadValue(ReadBytes(), k) as int
    {
      FieldValue(readBuffer[ReadLayout(k).byteIndex], ReadLayout(k)) as int
    }

    /**
     * `_set_write_key`: a value that fits the byte after its shift replaces the key's bits
     * (unmasked, so a value wider than the field spills into the next bits up); any other
     * value makes the byte store raise ValueError and nothing changes.
     */
    method SetWriteKey(k: WriteKey, value: int) returns (o: Outcome)
      requires Valid()
      modifies writeBuffer
      ensures o == Pass <==> FitsByte(WriteLayout(k), value)
      ensures o.Fail? ==> o.error == ValueError && writeBuffer[..] == old(writeBuffer[..])
      ensures o == Pass ==> writeBuffer[..] == SetKey(old(writeBuffer[..]), k, value as bv8)
    {
      var f := WriteLayout(k);
      if !FitsByte(f, value) {
        return Fail(ValueError);
      }
      FitsByteIsByte(f, value);
      ByteOfInt(value);
      var v := value as bv8;
      writeBuffer[f.byteIndex] := Put(writeBuffer[f.byteIndex], f, v);
      o := Pass;
    }

    /** `_setup_write_buffer`: read the device, then copy RES1, RES2 and RES3 into the write buffer. */
    method SetupWriteBuffer(frame: ReadFrame)
      requires Valid()
      modifies readBuffer, writeBuffer
      ensures readBuffer[..] == frame
      ensures writeBuffer[..] == CopyReserved(old(writeBuffer[..]), frame, ReservedCount)
    {
      ReadI2c(frame);
      var i := 0;
      while i < ReservedCount
        invariant 0 <= i <= ReservedCount
        invariant readBuffer[..] == frame
        invariant writeBuffer[..] == CopyReserved(old(writeBuffer[..]), frame, i)
      {
        var value := GetReadKey(ReservedRead(i));
        ReservedFits(frame, i);
        var o := SetWriteKey(ReservedWrite(i), value);
        i := i + 1;
      }
    }

    /** `magnetic`: read the device and decode the three axes. */
    method Magnetic(frame: ReadFrame) returns (v: Vec3)
      requires Valid()
      modifies readBuffer
      ensures readBuffer[..] == frame
      ensures v == DecodeFrame(frame)
    {
      ReadI2c(frame);
      var xTop := GetReadKey(BX1);
      var xBot := (GetReadKey(BX2) * 16) % 256;
      var yTop := GetReadKey(BY1);
      var yBot := (GetReadKey(BY2) * 16) % 256;
      var zTop := GetReadKey(BZ1);
      var zBot := (GetReadKey(BZ2) * 16) % 256;
      assert xTop == ReadValue(frame, BX1) as int && yTop == ReadValue(frame, BY1) as int;
      assert zTop == ReadValue(frame, BZ1) as int;
      assert xBot == (ReadValue(frame, BX2) << 4) as int by { BottomByte(ReadValue(frame, BX2)); }
      assert yBot == (ReadValue(frame, BY2) << 4) as int by { BottomByte(ReadValue(frame, BY2)); }
      assert zBot == (ReadValue(frame, BZ2) << 4) as int by { BottomByte(ReadValue(frame, BZ2)); }
      v := Vec3(UnpackAndScale(xTop, xBot), UnpackAndScale(yTop, yBot), UnpackAndScale(zTop, zBot));
    }
  }

  /** The ADDR store succeeds exactly for an address register value in 0..7. */
  lemma AddrFits(v: int)
    ensures FitsByte(WriteLayout(ADDR), v) <==> 0 <= v < 8
  {
    assert 0xFF as bv8 >> 5 == 7;
  }

  /** Storing 1 into PARITY, FAST or LOWPOWER succeeds. */
  lemma ControlFits()
    ensures FitsByte(WriteLayout(PARITY), 1) && FitsByte(WriteLayout(FAST), 1) && FitsByte(WriteLayout(LOWPOWER), 1)
  {
    assert 0xFF as bv8 >> 7 == 1 && 0xFF as bv8 >> 1 == 127;
  }

  /**
   * `TLV493D.__init__`: read the device, copy the reserved fields, set ADDR to `addrReg`,
   * PARITY, FAST and LOWPOWER to 1, and send the write buffer. An `addrReg` outside 0..7
   * makes the ADDR store raise ValueError before anything is sent.
   */
  method Open(frame: ReadFrame, addrReg: int) returns (r: Result<TLV493D>)
    ensures r.Err? <==> !(0 <= addrReg < 8)
    ensures r.Err? ==> r.error == ValueError
    ensures r.Ok? ==> var d := r.value;
      && fresh(d) && d.Valid() && fresh(d.readBuffer) && fresh(d.writeBuffer)
      && d.readBuffer[..] == frame
      && d.writeBuffer[..] == InitialWriteBuffer(frame, addrReg as bv8)
      && d.sent == [d.writeBuffer[..]]
  {
    var d := new TLV493D();
    d.SetupWriteBuffer(frame);
    AddrFits(addrReg);
    var o := d.SetWriteKey(ADDR, addrReg);
    if o.Fail? {
      return Err(ValueError);
    }
    ControlFits();
    o := d.SetWriteKey(PARITY, 1);
    o := d.SetWriteKey(FAST, 1);
    o := d.SetWriteKey(LOWPOWER, 1);
    d.WriteI2c();
    r := Ok(d);
  }
}
