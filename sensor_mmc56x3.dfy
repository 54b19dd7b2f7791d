/**
 * The MMC5603 variant: the chip is put into continuous mode at 1000 Hz once, after which
 * every field read skips the single-shot trigger.
 */
module Mmc56x3Sensor {
  import opened Results
  import opened Oversample
  import opened AutoRange
  import opened Mmc5603

  /** `MMC5603.scales` (sensor variant), in microtesla. */
  const Scales: seq<int> := [3000]

  /** With a one-entry table the chart keeps the scale index at 0. */
  lemma AutoRangePinned(x: real, y: real, z: real)
    ensures NextScale(Scales, 0, x, y, z) == 0
  {
    SingleRangeStaysAtZero(Scales, x, y, z);
  }

  /** The register writes `init_sensor` makes after construction: the ODR and CTRL2 for 1000 Hz, then continuous mode. */
  const InitWrites: seq<RegWrite> :=
    [RegWrite(OdrReg, 255), RegWrite(CtrlReg2, 0x80), RegWrite(CtrlReg0, 0x80), RegWrite(CtrlReg2, 0x90)]

  /** From the zeroed caches `reset` leaves, rate 1000 and then continuous mode give a CTRL2 cache of 0x90. */
  lemma InitControlByte()
    ensures ContinuousControl(RateControl(0, 1000), true) == 0x90
  {
  }

  /**
   * `init_sensor`: construct the driver (which checks the product ID and resets), set the
   * data rate to 1000 and turn continuous mode on.
   */
  method InitSensor(productId: bv8) returns (r: Result<MMC5603>)
    ensures r.Err? <==> productId != ChipId
    ensures r.Err? ==> r.error == RuntimeError
    ensures r.Ok? ==> var d := r.value;
      && fresh(d) && fresh(d.buffer) && d.Valid()
      && d.DataRate() == 1000 && d.IsContinuous() && d.ctrl2Cache == 0x90
      && d.writes == ResetWrites + InitWrites
  {
    r := Open(productId);
    if r.Err? {
      return;
    }
    var d := r.value;
    var o := d.SetDataRate(1000);
    d.SetContinuousMode(true);
  }

  /** The single-shot triggers `n` field reads make. */
  function Triggers(n: nat): (t: seq<RegWrite>)
    ensures |t| == n
  {
    seq(n, _ => RegWrite(CtrlReg0, 0x01))
  }

  lemma TriggersSnoc(n: nat)
    ensures Triggers(n + 1) == Triggers(n) + [RegWrite(CtrlReg0, 0x01)]
  {
  }

  /** The readings a run of output blocks decodes to. */
  function Readings(frames: seq<Frame>): (r: seq<Vec3>)
    ensures |r| == |frames|
  {
    seq(|frames|, i requires 0 <= i < |frames| => Decode(frames[i]))
  }

  /**
   * The on-device `read`, given the output blocks the bus delivers: set the driver's `range`
   * attribute (which no driver method reads), average `samples` decoded reads, and trigger
   * each read only when the chip is not in continuous mode.
   */
  method Read(dev: MMC5603, scale: int, samples: int, frames: seq<Frame>) returns (r: Result<Vec3>)
    requires dev.Valid() && samples <= |frames|
    modifies dev, dev.buffer
    ensures dev.range == scale
    ensures dev.odrCache == old(dev.odrCache) && dev.ctrl2Cache == old(dev.ctrl2Cache)
    ensures r == Average(Readings(frames), samples)
    ensures dev.writes == old(dev.writes) + Triggers(if dev.IsContinuous() then 0 else Iterations(samples))
  {
    dev.range := scale;
    var total := SumReads(dev, samples, frames);
    if samples == 0 {
      return Err(ZeroDivisionError);
    }
    AverageOfTotal(Readings(frames), samples, total);
    r := Ok(Vec3(total.x / samples as real, total.y / samples as real, total.z / samples as real));
  }

  /** The sampling loop of `read`: the per-axis sums of the first `samples` decoded reads. */
  method SumReads(dev: MMC5603, samples: int, frames: seq<Frame>) returns (total: Vec3)
    requires dev.Valid() && samples <= |frames|
    modifies dev`writes, dev.buffer
    ensures total == Sum(Readings(frames)[..Iterations(samples)])
    ensures dev.writes == old(dev.writes) + Triggers(if dev.IsContinuous() then 0 else Iterations(samples))
  {
    ghost var continuous := dev.IsContinuous();
    ghost var readings := Readings(frames);
    total := Zero;
    var i := 0;
    while i < Iterations(samples)
      invariant 0 <= i <= Iterations(samples)
      invariant dev.IsContinuous() == continuous
      invariant dev.writes == old(dev.writes) + Triggers(if continuous then 0 else i)
      invariant total == Sum(readings[..i])
    {
      var v := dev.Magnetic(frames[i]);
      assert v == readings[i];
      TriggersSnoc(i);
      SumSnoc(readings, i);
      total := total.Plus(v);
      i := i + 1;
    }
  }

  /**
   * After `init_sensor` the chip is in continuous mode, so a `read` sends no register writes at
   * all: the device's write trace is still the construction and `init_sensor` writes.
   */
  method InitThenRead(productId: bv8, scale: int, samples: int, frames: seq<Frame>) returns (d: Result<MMC5603>, r: Result<Vec3>)
    requires samples <= |frames|
    ensures d.Err? <==> productId != ChipId
    ensures d.Err? ==> d.error == RuntimeError && r == Err(RuntimeError)
    ensures d.Ok? ==> var dev := d.value;
      && dev.Valid() && dev.IsContinuous() && dev.range == scale
      && dev.writes == ResetWrites + InitWrites
      && r == Average(Readings(frames), samples)
  {
    d := InitSensor(productId);
    if d.Err? {
      return d, Err(d.error);
    }
    var dev := d.value;
    r := Read(dev, scale, samples, frames);
  }
}
