/** The TLV493D variant: one fixed range; `read` assigns a `range` the driver never consults. */
module Tlv493dSensor {
  import opened Results
  import opened Oversample
  import opened AutoRange
  import opened Tlv493d

  /** `TLV493D.scales` (sensor variant), in microtesla. */
  const Scales: seq<int> := [130000]

  /** With a one-entry table the chart keeps the scale index at 0. */
  lemma AutoRangePinned(x: real, y: real, z: real)
    ensures NextScale(Scales, 0, x, y, z) == 0
  {
    SingleRangeStaysAtZero(Scales, x, y, z);
  }

  /** `init_sensor`: the driver at its default address, from the first read block; construction sends the initial write buffer once. */
  method InitSensor(frame: ReadFrame) returns (r: Result<TLV493D>)
    ensures r.Ok?
    ensures var d := r.value;
      && fresh(d) && d.Valid() && d.readBuffer[..] == frame
      && d.writeBuffer[..] == InitialWriteBuffer(frame, 0)
      && d.sent == [d.writeBuffer[..]]
  {
    r := Open(frame, 0);
  }

  /** The readings a run of read blocks decodes to. */
  function Readings(frames: seq<ReadFrame>): (r: seq<Vec3>)
    ensures |r| == |frames|
  {
    seq(|frames|, i requires 0 <= i < |frames| => DecodeFrame(frames[i]))
  }

  /**
   * The on-device `read`, given the read blocks the bus delivers: assign `range`, then
   * average `samples` decoded reads. The result does not depend on `scale`.
   */
  method Read(dev: TLV493D, scale: int, samples: int, frames: seq<ReadFrame>) returns (r: Result<Vec3>)
    requires dev.Valid() && samples <= |frames|
    modifies dev, dev.readBuffer
    ensures dev.range == scale
    ensures dev.sent == old(dev.sent)
    ensures r == Average(Readings(frames), samples)
    ensures samples > 0 ==> dev.readBuffer[..] == frames[samples - 1]
  {
    dev.range := scale;
    var total := Zero;
    var i := 0;
    while i < Iterations(samples)
      invariant 0 <= i <= Iterations(samples)
      invariant dev.Valid() && dev.range == scale && dev.sent == old(dev.sent)
      invariant i > 0 ==> dev.readBuffer[..] == frames[i - 1]
      invariant total == Sum(Readings(frames)[..i])
    {
      var v := dev.Magnetic(frames[i]);
      SumSnoc(Readings(frames), i);
      total := total.Plus(v);
      i := i + 1;
    }
    if samples == 0 {
      return Err(ZeroDivisionError);
    }
    AverageOfTotal(Readings(frames), samples, total);
    r := Ok(Vec3(total.x / samples as real, total.y / samples as real, total.z / samples as real));
  }

  /** Each averaged axis lies within the sensor's decode range, 98 times the signed 12-bit span. */
  lemma ReadWithinDecodeRange(frames: seq<ReadFrame>, samples: int)
    requires 0 < samples <= |frames|
    ensures var a := Average(Readings(frames), samples);
      && a.Ok?
      && -200704.0 <= a.value.x <= 200606.0
      && -200704.0 <= a.value.y <= 200606.0
      && -200704.0 <= a.value.z <= 200606.0
  {
    var readings := Readings(frames);
    forall i | 0 <= i < samples
      ensures -200704.0 <= readings[i].x <= 200606.0
      ensures -200704.0 <= readings[i].y <= 200606.0
      ensures -200704.0 <= readings[i].z <= 200606.0
    {
      DecodeFrameLayout(frames[i]);
    }
    AverageWithin(readings, samples, Vec3(-200704.0, -200704.0, -200704.0), Vec3(200606.0, 200606.0, 200606.0));
  }
}
