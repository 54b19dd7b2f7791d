# magnetometer — a Dafny model

This project models the core of the `magnetometer` terminal application. The application reads a three-axis magnetometer through a CircuitPython board and draws a live chart. The model covers four parts:

- **The MMC5603 driver** (`Mmc5603`):
  - the 20-bit decode of the 9-byte output block, recentred on 2^19 counts and scaled by 0.00625 µT per count;
  - the temperature formula;
  - the `data_rate` / `continuous_mode` caches of the CTRL2 register;
  - `reset`, `set_reset` and the product-ID check.

  Register writes are recorded, in order, as a trace.
- **The TLV493D driver** (`Tlv493d`):
  - the read and write field tables (byte, mask, shift);
  - `_get_read_key`, and the unmasked in-place `_set_write_key` on the 4-byte write buffer;
  - the reserved-field copy of `_setup_write_buffer`;
  - the write-key sequence of `__init__`;
  - the signed 12-bit axis decode of `magnetic` / `_unpack_and_scale`.
- **The chart** (`AutoRange`, `ChartView`):
  - zero offsets, and the 1024-entry history deque pre-filled with NaN fillers;
  - the one-step auto-range rule of `read_sensor`;
  - the windowing, unit choice and readouts of `render`;
  - the zero actions of the app.
- **A chart tick against an LIS3MDL** (`LiveChart`): `read_sensor` composed with the variant's `read`, so that the range one tick chooses is the range the next tick's readings are taken under.
- **The sensor variants** (`SensorBase`, `SensorChip`, `Oversample`, `Lis3mdlSensor`, `Lis2mdlSensor`, `Mmc56x3Sensor`, `Tlv493dSensor`): each variant's scale table, `init_sensor`, and the on-device `read` that averages `samples` readings in a loop.

How the source maps onto Dafny:

- **State-changing code.** The chart widget, the app and both drivers are classes whose methods update fields or arrays. Bus transfers are method parameters: the output block, the read block, or the product-ID byte the chip returns.
- **Loops.** The sampling loops of the four `read`s and the reserved-key loop of `_setup_write_buffer` are `while` loops. Each is proved against a specification function: `Oversample.Average` or `Tlv493d.CopyReserved`.
- **Pure code.** The decodes, the auto-range rule and `render` are functions. Lemmas state their properties.
- **Numbers.**
  - Bytes are `bv8`.
  - Python integers that reach a bytearray store are `int`, and the store's range check is modelled (a ValueError when it fails).
  - Readings are exact reals.
  - A NaN history entry is the tag `NoData`, and a NaN plot value is `NaN`.

What happens at the edges:

- **`read` with `samples == 0`** gives `Err(ZeroDivisionError)`.
- **`read` with a negative `samples`** skips the loop. It divides the zero sums, so it returns a zero vector: Python's signed zero is the real 0.
- **`render` with a window that holds no reading** gives `Failed(ValueError)`, which is what `max` of an empty sequence raises.
- **`render` with `width - 13 == 0`** plots the whole history, because of Python's `l[-0:]`.
- **`render` with a negative `width - 13`** drops that many entries from the front.
- **Auto-ranging uses the signed `max(x, y, z)`**, as `read_sensor` is written, not the largest absolute value. `AutoRange.NegativeFieldNeverWidens` shows the consequence: a strong field pointing the negative way never widens the range.

## Model

| member | source | states |
|---|---|---|
| Mmc5603.Axis20 | magnetometer/board/adafruit_mmc56x3.py:146-148 | an axis assembled from high byte, middle byte and the high nibble of the low byte is an unsigned 20-bit count in [0, 2^20) |
| Mmc5603.Axis20BitsIsSum | magnetometer/board/adafruit_mmc56x3.py:146-148 | the three shifted parts occupy disjoint bits, so the bitwise OR of `hi << 12`, `mid << 4` and `lo >> 4` equals their sum |
| Mmc5603.AxisCount | magnetometer/board/adafruit_mmc56x3.py:146-152 | after subtracting 2^19 each axis count lies in [-2^19, 2^19) |
| Mmc5603.Decode | magnetometer/board/adafruit_mmc56x3.py:146-157 | every decoded axis lies in [-3276.8, 3276.8) µT |
| Mmc5603.DecodeZeroFrame | magnetometer/board/adafruit_mmc56x3.py:150-156 | the all-zero block reads -3276.8 µT on every axis |
| Mmc5603.AxisRoundTrip | magnetometer/board/adafruit_mmc56x3.py:146-152 | every signed 20-bit count is decoded from the three bytes that carry it |
| Mmc5603.DecodeEncode | magnetometer/board/adafruit_mmc56x3.py:146-157 | decoding an encoded block returns its three counts, scaled by 0.00625 µT |
| Mmc5603.EncodeDecode | magnetometer/board/adafruit_mmc56x3.py:146-148 | re-encoding the decoded counts restores the block except the unused low nibbles of bytes 6 to 8 |
| Mmc5603.AxisBytes | magnetometer/board/adafruit_mmc56x3.py:146-152 | one axis: the bytes of the decoded count are the high byte, the middle byte and the high nibble of the low byte |
| Mmc5603.TemperatureCelsius | magnetometer/board/adafruit_mmc56x3.py:128-131 | the temperature `raw * 0.8 - 75` lies in [-75, 129] °C |
| Mmc5603.TemperatureSteps | magnetometer/board/adafruit_mmc56x3.py:128-130 | raw 0 reads -75 °C, each count is 0.8 °C, and the formula is strictly increasing |
| Mmc5603.OdrRegisterValue | magnetometer/board/adafruit_mmc56x3.py:170-175 | the ODR register gets 255 for 1000 Hz and the rate itself for 0..255 |
| Mmc5603.RateControl | magnetometer/board/adafruit_mmc56x3.py:170-177 | after a rate is set, the hpower bit 0x80 of the CTRL2 cache is on exactly for 1000 Hz, and every other bit is unchanged |
| Mmc5603.ContinuousControl | magnetometer/board/adafruit_mmc56x3.py:188-193 | after the mode is set, bit 0x10 of the CTRL2 cache equals the mode, and every other bit is unchanged |
| Mmc5603.ControlBitsIndependent | magnetometer/board/adafruit_mmc56x3.py:167-193 | setting the rate keeps the mode bit, and setting the mode keeps the hpower bit |
| Mmc5603.MMC5603.constructor | magnetometer/board/adafruit_mmc56x3.py:108-109 | after construction: caches zeroed, the reset writes sent, a zeroed 9-byte buffer |
| Mmc5603.MMC5603.ContinuousMode | magnetometer/board/adafruit_mmc56x3.py:184 | the getter returns 0 or 0x10 |
| Mmc5603.MMC5603.Reset | magnetometer/board/adafruit_mmc56x3.py:112-118 | `reset` zeroes both caches, so `data_rate` reads 0 and continuous mode is off; it writes 0x80 to CTRL1, then the set/reset pulses |
| Mmc5603.MMC5603.SetReset | magnetometer/board/adafruit_mmc56x3.py:195-200 | `set_reset` writes 0x08, then 0x10, to CTRL0 |
| Mmc5603.MMC5603.SetDataRate | magnetometer/board/adafruit_mmc56x3.py:165-177 | a rate other than 1000 or 0..255 raises ValueError and changes nothing; a valid rate is cached, the getter returns it, and the ODR and CTRL2 writes follow in order |
| Mmc5603.MMC5603.SetContinuousMode | magnetometer/board/adafruit_mmc56x3.py:186-193 | the getter's truth value becomes the value set; turning the mode on first writes 0x80 to CTRL0; the cache is always written to CTRL2 |
| Mmc5603.MMC5603.Temperature | magnetometer/board/adafruit_mmc56x3.py:120-131 | in continuous mode it raises RuntimeError and writes nothing; otherwise it triggers a measurement (0x02 to CTRL0) and returns `raw * 0.8 - 75` |
| Mmc5603.MMC5603.Magnetic | magnetometer/board/adafruit_mmc56x3.py:133-157 | the block fills the buffer and is decoded; a trigger 0x01 is written to CTRL0 exactly when not in continuous mode |
| Mmc5603.Open | magnetometer/board/adafruit_mmc56x3.py:102-110 | construction raises RuntimeError exactly when the product-ID register is not 0x10 |
| Tlv493d.ReadLayout | magnetometer/board/adafruit_tlv493d.py:82-97 | every read field lies within the 10-byte read buffer |
| Tlv493d.WriteLayout | magnetometer/board/adafruit_tlv493d.py:99-111 | every write field lies within the 4-byte write buffer |
| Tlv493d.TablesWellFormed | magnetometer/board/adafruit_tlv493d.py:82-111 | in every table entry the shift is the index of the mask's lowest bit, and `mask >> shift` is a run of ones from bit 0 |
| Tlv493d.WriteMasksDisjoint | magnetometer/board/adafruit_tlv493d.py:99-111 | two different write keys in the same byte have disjoint masks |
| Tlv493d.WriteMasksCover | magnetometer/board/adafruit_tlv493d.py:99-111 | the write masks cover bytes 1 to 3 completely, and no key is in byte 0 |
| Tlv493d.FieldValue | magnetometer/board/adafruit_tlv493d.py:147-151 | an extracted field is at most `mask >> shift` |
| Tlv493d.FitsByteIsIntegerShift | magnetometer/board/adafruit_tlv493d.py:153-158 | the bytearray store succeeds exactly when `0 <= value * 2^shift < 256`, and the byte shift then equals that product |
| Tlv493d.PutThenGet | magnetometer/board/adafruit_tlv493d.py:153-158 | round trip: a value that fits its field reads back unchanged after it is written |
| Tlv493d.PutKeepsOtherBits | magnetometer/board/adafruit_tlv493d.py:153-158 | a fitting value changes only the bits of the field's mask |
| Tlv493d.PutKeepsDisjointField | magnetometer/board/adafruit_tlv493d.py:153-158 | writing one field leaves every disjoint field of the byte as it was |
| Tlv493d.AddrOverflowSpillsIntoParity | magnetometer/board/adafruit_tlv493d.py:153-158 | the value is not masked: an ADDR value of 4 to 7 reads back as its low two bits and sets PARITY |
| Tlv493d.SetKeyFields | magnetometer/board/adafruit_tlv493d.py:153-158 | setting a key to a fitting value makes it read back, and leaves every other key and byte 0 unchanged |
| Tlv493d.FieldsDetermineBuffer | magnetometer/board/adafruit_tlv493d.py:99-111 | byte 0 and the eleven write keys determine the whole write buffer |
| Tlv493d.ReservedFits | magnetometer/board/adafruit_tlv493d.py:141-145 | each reserved read field fits the write field of the same name, so the copy never raises |
| Tlv493d.CopyReservedFields | magnetometer/board/adafruit_tlv493d.py:141-145 | after the copy, write RES1..RES3 equal read RES1..RES3, while byte 0 and the other keys are unchanged |
| Tlv493d.ReservedChain | magnetometer/board/adafruit_tlv493d.py:143-145 | setting RES1, RES2 and RES3 in turn leaves each holding its value and every other key as it was |
| Tlv493d.InitialWriteBufferFields | magnetometer/board/adafruit_tlv493d.py:113-130 | after `__init__`: byte 0 is 0; RES1..RES3 echo the read buffer; ADDR holds the address register (its low two bits); PARITY, FAST and LOWPOWER are 1; INT, TEMP_DISABLE, LP_PERIOD and POWERDOWN are 0 |
| Tlv493d.InitialControlByte | magnetometer/board/adafruit_tlv493d.py:124-129 | byte 1 after the ADDR, PARITY, FAST and LOWPOWER stores holds those values and keeps RES1 and INT |
| Tlv493d.Signed16 | magnetometer/board/adafruit_tlv493d.py:181 | `unpack_from(">h")` gives a signed 16-bit value |
| Tlv493d.CountIsTwelveBit | magnetometer/board/adafruit_tlv493d.py:179-183 | the floor shift by 4 gives the signed 12-bit count of `top` and the high nibble of `bottom`, in [-2048, 2047]; the scaled value is 98 times it |
| Tlv493d.UnpackExample | magnetometer/board/adafruit_tlv493d.py:179-183 | (0x7F, 0x00) decodes to 2032 counts, that is 2032 × 98 |
| Tlv493d.EncodeCount | magnetometer/board/adafruit_tlv493d.py:179-183 | the encoder of a 12-bit count yields two bytes, the lower with a clear low nibble |
| Tlv493d.DecodeEncodeCount | magnetometer/board/adafruit_tlv493d.py:179-183 | every 12-bit count is decoded from its encoding |
| Tlv493d.EncodeDecodeCount | magnetometer/board/adafruit_tlv493d.py:179-183 | bytes with a clear low nibble are recovered from their count |
| Tlv493d.AxisValue | magnetometer/board/adafruit_tlv493d.py:166-183 | one axis is 98 times the signed 12-bit count of its top byte and nibble |
| Tlv493d.DecodeFrameLayout | magnetometer/board/adafruit_tlv493d.py:160-177 | x comes from byte 0 and the high nibble of byte 4, y from byte 1 and the low nibble of byte 4, z from byte 2 and the low nibble of byte 5; each lies in 98 × [-2048, 2047] |
| Tlv493d.TLV493D.constructor | magnetometer/board/adafruit_tlv493d.py:117-118 | both buffers start zeroed and nothing has been sent |
| Tlv493d.TLV493D.ReadI2c | magnetometer/board/adafruit_tlv493d.py:132-134 | the transfer fills the read buffer with the block the device returns |
| Tlv493d.TLV493D.WriteI2c | magnetometer/board/adafruit_tlv493d.py:137-139 | the current write buffer is appended to what has been sent |
| Tlv493d.TLV493D.GetReadKey | magnetometer/board/adafruit_tlv493d.py:147-151 | the result is `(byte & mask) >> shift` of the read buffer and at most `mask >> shift`; it reads and changes no buffer |
| Tlv493d.TLV493D.SetWriteKey | magnetometer/board/adafruit_tlv493d.py:153-158 | the store succeeds exactly when the shifted value fits a byte, and the buffer becomes `SetKey` of the old one; otherwise ValueError and the buffer is unchanged |
| Tlv493d.TLV493D.SetupWriteBuffer | magnetometer/board/adafruit_tlv493d.py:141-145 | the loop reads the device and leaves the write buffer as the reserved copy of the read block |
| Tlv493d.TLV493D.Magnetic | magnetometer/board/adafruit_tlv493d.py:160-177 | reads the block and returns its decode |
| Tlv493d.AddrFits | magnetometer/board/adafruit_tlv493d.py:124 | the ADDR store succeeds exactly for an address register value in 0..7 |
| Tlv493d.Open | magnetometer/board/adafruit_tlv493d.py:113-130 | an address register outside 0..7 raises ValueError before anything is sent; otherwise the write buffer is the initial buffer and is sent once |
| AutoRange.Max3 | magnetometer/main.py:76 | the signed `max(x, y, z)`: at least each argument and equal to one of them |
| AutoRange.NextScale | magnetometer/main.py:73-85 | the new index stays in the table, never moves for an empty table, and moves at most one step |
| AutoRange.WidensAboveThreshold | magnetometer/main.py:79-80 | above 90% of a range that is not the last, the index rises by exactly one |
| AutoRange.SingleRangeStaysAtZero | magnetometer/main.py:77-82 | a one-entry table keeps the index at 0 |
| AutoRange.NoBounceAfterWiden | magnetometer/main.py:79-82 | a reading that widened the range does not narrow it when fed again |
| AutoRange.NoBounceAfterNarrow | magnetometer/main.py:79-82 | a reading that narrowed the range does not widen it when fed again |
| AutoRange.NegativeFieldNeverWidens | magnetometer/main.py:76-80 | with the signed maximum, a field that is non-positive on every axis never widens the range |
| AutoRange.Iterate | magnetometer/main.py:75-85 | any number of steps keeps the index in the table |
| AutoRange.FixedPointStays | magnetometer/main.py:78-85 | a reading that leaves the index unchanged keeps it there however often it is fed |
| AutoRange.ClimbOrSettle | magnetometer/main.py:79-82 | under a steady field that does not narrow, after k readings the walk has settled or climbed k steps |
| AutoRange.DescendOrSettle | magnetometer/main.py:79-82 | under a steady field that does not widen, after k readings the walk has settled or descended k steps |
| AutoRange.SettlesWithinTableLength | magnetometer/main.py:74-85 | under a steady field the walk reaches a fixed index within as many readings as the table has entries |
| ChartView.PushFull | magnetometer/main.py:50-53 | appending to the full deque keeps 1024 entries, evicts the oldest and ends with the new entry |
| ChartView.PushAllKeepsNewest | magnetometer/main.py:50-53 | after any run of appends the deque holds exactly the newest 1024 entries seen |
| ChartView.MountedShape | magnetometer/main.py:37-54 | after mounting: 1023 NaN fillers, then the single (0, 0, 0, 0) reading; the invariant holds |
| ChartView.RecordedEffect | magnetometer/main.py:65-87 | a reading keeps the history full and evicts the oldest entry; the newest entry is the raw reading minus the offsets; the scale moves at most one step and never with an empty table; offsets and size are untouched |
| ChartView.ZeroBeforeReadIsNoOp | magnetometer/main.py:53-63 | zeroing before any reading changes nothing |
| ChartView.ZeroAfterReadTakesRawValue | magnetometer/main.py:56-70 | zeroing right after a reading sets the offset to that reading's raw value |
| ChartView.SteadyFieldReadsZero | magnetometer/main.py:56-70 | after zeroing x, the same raw field reads 0 on x |
| ChartView.ZeroActionsIndependent | magnetometer/main.py:56-63 | each zero action changes only its own offset, and the three commute |
| ChartView.ZeroTwiceAddsTwice | magnetometer/main.py:56-57 | offsets accumulate: zeroing twice adds the newest value twice |
| ChartView.ZeroAllAddsLatest | magnetometer/main.py:165-168 | zeroing all adds the newest reading to each offset and changes nothing else |
| ChartView.PySuffix | magnetometer/main.py:105 | Python's `l[-w:]` is never longer than `l` |
| ChartView.PySuffixWindow | magnetometer/main.py:105 | `l[-w:]`: the last w entries for 1 <= w <= len, all for w = 0 or w > len, all but the first -w below 0, empty from -len down |
| ChartView.MaxMag | magnetometer/main.py:106 | the maximum finite magnitude is absent exactly when the window holds no reading; otherwise it bounds every magnitude and is attained |
| ChartView.Series | magnetometer/main.py:105 | a series has one value per window entry |
| ChartView.RenderBlankUntilSized | magnetometer/main.py:95-96 | `render` returns "" exactly while height or width is still -1 |
| ChartView.RenderFailsOnlyOnEmptyWindow | magnetometer/main.py:98-106 | on a mounted, sized chart `render` raises ValueError exactly when `width - 13 <= -1024` empties the window; otherwise it yields a frame |
| ChartView.RenderWindow | magnetometer/main.py:98-105 | for 1 <= width - 13 <= 1024, every series holds exactly the newest width - 13 entries in order; the baseline is zeros; the plot height is height - 5 |
| ChartView.RenderUnit | magnetometer/main.py:106-112 | the unit is millitesla exactly when some reading in the window has magnitude above 1000, which is when the maximum exceeds 1000 |
| ChartView.RenderedWindow | magnetometer/main.py:105-119 | on a mounted chart a frame is the plot input of a window ending with the newest entry |
| ChartView.RenderReadouts | magnetometer/main.py:114-117 | the readouts are the corrected newest reading in the frame's unit |
| ChartView.Chart.constructor | magnetometer/main.py:37-54 | `on_mount` leaves the mounted state, and the invariant holds |
| ChartView.Chart.ZeroX | magnetometer/main.py:56-57 | adds the newest x to the x offset and keeps the invariant |
| ChartView.Chart.ZeroY | magnetometer/main.py:59-60 | adds the newest y to the y offset and keeps the invariant |
| ChartView.Chart.ZeroZ | magnetometer/main.py:62-63 | adds the newest z to the z offset and keeps the invariant |
| ChartView.Chart.ReadSensor | magnetometer/main.py:65-88 | offsets subtracted, one auto-range step taken (only with a non-empty table), the corrected reading appended; the invariant holds |
| ChartView.Chart.Resize | magnetometer/main.py:90-92 | `on_resize` records the new height and width |
| ChartView.MagnetometerApp.constructor | magnetometer/main.py:149-154 | the app's chart starts mounted |
| ChartView.MagnetometerApp.ActionZeroX | magnetometer/main.py:156-157 | the x action is the chart's `zero_x` |
| ChartView.MagnetometerApp.ActionZeroY | magnetometer/main.py:159-160 | the y action is the chart's `zero_y` |
| ChartView.MagnetometerApp.ActionZeroZ | magnetometer/main.py:162-163 | the z action is the chart's `zero_z` |
| ChartView.MagnetometerApp.ActionZeroAll | magnetometer/main.py:165-168 | `action_zero_all` is exactly zero x, then y, then z |
| LiveChart.TickAverage | magnetometer/sensors/lis3mdl.py:12-36 | `read` with its default 16 samples returns, without error, the average of the first 16 readings under the given range |
| LiveChart.CorrectedSquares | magnetometer/main.py:68-71 | the sum of the squared corrected components, which is never negative and so is always a valid argument for `sqrt` |
| LiveChart.ReadSensorLis3mdl | magnetometer/main.py:65-88 | `read_sensor` against an LIS3MDL: the chip's range becomes the chart's scale, which is one of its four ranges, and 16 readings are taken under it; the chart's new state is `Recorded` of its old state, given the average of those readings and the `sqrt` of the corrected squares |
| LiveChart.TwoTicksLis3mdl | magnetometer/main.py:65-88 | over two `read_sensor` ticks against an LIS3MDL, the second tick's readings are taken under the range that the first tick's auto-range step chose from its corrected average; 32 readings are taken, the invariant holds, and the newest history entry is the second average minus the unchanged offsets |
| Oversample.SumOfConstant | magnetometer/sensors/lis3mdl.py:28-32 | summing n copies of a reading gives n times it |
| Oversample.SumWithin | magnetometer/sensors/lis2mdl.py:19-23 | the running sums of readings in [lo, hi] lie between n·lo and n·hi |
| Oversample.AverageOfConstant | magnetometer/sensors/lis3mdl.py:26-36 | constant readings c average to c for any samples > 0 |
| Oversample.AverageWithin | magnetometer/sensors/tlv493d.py:16-24 | the average of readings in a box exists and lies in the box |
| Oversample.AverageUsesOnlyFirstSamples | magnetometer/sensors/mmc56x3.py:20-24 | only the first `samples` readings affect the result |
| Oversample.AverageOfTotal | magnetometer/sensors/lis3mdl.py:33-35 | dividing the loop's sums by a non-zero count gives the average |
| SensorBase.DefaultScalesNeverMove | magnetometer/sensors/base.py:11 | with the default empty table the chart never changes the scale index |
| SensorChip.Chip.constructor | magnetometer/sensors/lis3mdl.py:9 | a fresh chip driver has delivered no readings |
| SensorChip.Chip.Magnetic | magnetometer/sensors/lis3mdl.py:29 | `sensor.magnetic` delivers the next reading under the range in force |
| Lis3mdlSensor.ScalesAreGaussRanges | magnetometer/sensors/lis3mdl.py:5-19 | the table [400, 800, 1200, 1600] is strictly increasing, and entry i is 100 × the gauss range {4, 8, 12, 16}[i] |
| Lis3mdlSensor.Read | magnetometer/sensors/lis3mdl.py:12-36 | sets the chip's range to `scale` before sampling, takes exactly `samples` readings under it, and returns their average (ZeroDivisionError for 0) |
| Lis3mdlSensor.SteadyFieldReadsBack | magnetometer/sensors/lis3mdl.py:25-36 | a steady field reads back unchanged at every range |
| Lis3mdlSensor.ZeroSamplesRaise | magnetometer/sensors/lis3mdl.py:33-35 | zero samples raise ZeroDivisionError |
| Lis2mdlSensor.AutoRangePinned | magnetometer/sensors/lis2mdl.py:5 | with the table [5000] the scale index stays 0 |
| Lis2mdlSensor.Read | magnetometer/sensors/lis2mdl.py:16-27 | ignores `scale`, leaves the chip's range unchanged, and returns the average of `samples` readings |
| Lis2mdlSensor.AverageInBox | magnetometer/sensors/lis2mdl.py:17-27 | readings within a box average to a value within it |
| Mmc56x3Sensor.AutoRangePinned | magnetometer/sensors/mmc56x3.py:5 | with the table [3000] the scale index stays 0 |
| Mmc56x3Sensor.InitControlByte | magnetometer/sensors/mmc56x3.py:12-13 | from the zeroed caches, rate 1000 then continuous mode leave the CTRL2 cache at 0x90 |
| Mmc56x3Sensor.InitSensor | magnetometer/sensors/mmc56x3.py:8-14 | fails with RuntimeError exactly on a wrong chip; otherwise rate 1000, continuous mode, CTRL2 cache 0x90, and the writes are the reset writes, ODR 255, CTRL2 0x80, CTRL0 0x80, CTRL2 0x90 |
| Mmc56x3Sensor.SumReads | magnetometer/sensors/mmc56x3.py:20-24 | the loop sums the first `samples` decoded blocks and writes one trigger per read only in single-shot mode |
| Mmc56x3Sensor.Read | magnetometer/sensors/mmc56x3.py:17-28 | assigns `range`, keeps the caches, returns the average of the decoded blocks, and writes triggers only in single-shot mode |
| Mmc56x3Sensor.InitThenRead | magnetometer/sensors/mmc56x3.py:8-28 | `init_sensor` fails with RuntimeError exactly on a wrong chip; otherwise the returned device is in continuous mode, a following read returns the average of the decoded blocks, and the device's write trace is still only the construction and `init_sensor` writes, so the read sent none |
| Tlv493dSensor.AutoRangePinned | magnetometer/sensors/tlv493d.py:5 | with the table [130000] the scale index stays 0 |
| Tlv493dSensor.InitSensor | magnetometer/sensors/tlv493d.py:8-11 | the driver at address register 0 always initialises, with the initial write buffer, and sends that buffer exactly once |
| Tlv493dSensor.Read | magnetometer/sensors/tlv493d.py:14-25 | the result is the average of the decoded blocks whatever `scale` is; nothing is written to the device |
| Tlv493dSensor.ReadWithinDecodeRange | magnetometer/sensors/tlv493d.py:14-25 | each averaged axis lies in [-200704, 200606] µT |

## Left out

- Bus I/O (`readinto`, `write`, `write_then_readinto`): the bytes a transfer returns are method parameters, and register writes and sent buffers are recorded as traces.
- Sleeps and the measurement-done poll loops of the MMC5603 driver: these are hardware timing, and the model assumes the measurement completes.
- The `adafruit_register` descriptors are not part of this model; each register is a plain byte in the write trace.
- The TLV493D `address` argument and the I2C device object: the device is given by the blocks it returns.
- `sensors/base.py` apart from the default `scales` (remote execution, the CircuitPython check, on-device I2C setup), `sensors/sin.py` (a trigonometric test signal) and `sensors/__init__.py` (re-exports).
- The LIS3MDL and LIS2MDL chip drivers are not part of this model. A chip is a response function of (range, reading index). LIS2MDL's `init_sensor` settings (`low_power = 0`, i.e. high resolution, and `data_rate = Rate_100_HZ`) are not modelled; LIS3MDL's `init_sensor` only constructs the driver.
- The UI: textual widgets, rich panels, key bindings, `set_interval`, `refresh`, the typer CLI, `asciichartpy.plot`, the `6.2f` formatting and the title. `render` is modelled up to the series, baseline, height and readouts handed to the plotter.
- Floating point: readings, means, the 0.9 threshold and the 0.00625 / 0.098 scalings are exact reals; NaN is a tag. `sqrt` is not computed: the magnitude is a parameter that must be the non-negative square root of the corrected squares.
- Lis3mdlSensor.Read, Lis2mdlSensor.Read, Mmc56x3Sensor.Read, Tlv493dSensor.Read: these are stated for the readings the device delivers; the MMC5603 and TLV493D variants take the blocks as a sequence that must hold at least `samples` of them.
- AutoRange.NoBounceAfterWiden: states that the index does not step back after widening, not that it stays at i + 1, because a reading above the next threshold as well widens again.
- Lis3mdlSensor.Read: does not model what the chip's `range` setter does with a value outside 0..3, because that driver is not part of this model.
