/**
 * The chart's `read_sensor` tick wired to an LIS3MDL variant: `sensor.read(self.scale)` runs the
 * variant's averaging read under the chart's current range, and the chart records its result.
 * This is where auto-ranging feeds back into the chip: the range one tick chooses is the range
 * the next tick's readings are taken under.
 */
module LiveChart {
  import opened Results
  import opened Oversample
  import opened AutoRange
  import opened SensorChip
  import opened ChartView
  import Lis3mdlSensor

  /** `sensor.read(self.scale)` passes no sample count, so the variant's default of 16 applies. */
  const DefaultSamples := 16

  /** The average `read` returns: the 16 readings the chip delivers under `range`, from reading `start` on. */
  function TickAverage(respond: (int, nat) -> Vec3, range: int, start: nat): (r: Vec3)
    ensures Average(Responses(respond, range, start, DefaultSamples), DefaultSamples) == Ok(r)
  {
    var readings := Responses(respond, range, start, DefaultSamples);
    assert readings[..Iterations(DefaultSamples)] == readings;
    var total := Sum(readings);
    Vec3(total.x / 16.0, total.y / 16.0, total.z / 16.0)
  }

  /** `x**2 + y**2 + z**2` of the reading corrected by the chart's offsets. */
  function CorrectedSquares(s: ChartState, raw: Vec3): (r: real)
    ensures 0.0 <= r
  {
    var x, y, z := raw.x - s.zeroX, raw.y - s.zeroY, raw.z - s.zeroZ;
    x * x + y * y + z * z
  }

  /**
   * One tick against an LIS3MDL: the chip's range is set to the chart's scale, which always names
   * one of its four gauss ranges, the 16 readings are taken under it and averaged, and the chart
   * records that average with its magnitude. `sqrt` stands for `math.sqrt` on non-negative reals.
   */
  method ReadSensorLis3mdl(chart: Chart, chip: Chip, sqrt: real -> real)
    requires chart.Valid() && chart.scales == Lis3mdlSensor.Scales
    requires forall v :: 0.0 <= v ==> 0.0 <= sqrt(v) && sqrt(v) * sqrt(v) == v
    modifies chart, chip
    ensures chip.range == old(chart.scale) && 0 <= chip.range < |Lis3mdlSensor.GaussRanges|
    ensures chip.taken == old(chip.taken) + DefaultSamples
    ensures var raw := TickAverage(chip.respond, old(chart.scale), old(chip.taken));
      chart.State() == Recorded(old(chart.State()), chart.scales, raw, sqrt(CorrectedSquares(old(chart.State()), raw)))
    ensures chart.Valid()
  {
    assert Iterations(DefaultSamples) == DefaultSamples;
    ghost var average := TickAverage(chip.respond, chart.scale, chip.taken);
    var r := Lis3mdlSensor.Read(chip, chart.scale, DefaultSamples);
    assert r == Ok(average);
    var raw := r.value;
    var mag := sqrt(CorrectedSquares(chart.State(), raw));
    chart.ReadSensor(raw, mag);
  }

  /**
   * Two ticks in a row, which is where auto-ranging feeds back into the chip: the second tick's
   * 16 readings are taken under the range the first tick's step chose from its corrected average,
   * and the newest history entry is their average corrected by the unchanged offsets.
   */
  method TwoTicksLis3mdl(chart: Chart, chip: Chip, sqrt: real -> real)
    requires chart.Valid() && chart.scales == Lis3mdlSensor.Scales
    requires forall v :: 0.0 <= v ==> 0.0 <= sqrt(v) && sqrt(v) * sqrt(v) == v
    modifies chart, chip
    ensures var raw1 := TickAverage(chip.respond, old(chart.scale), old(chip.taken));
      chip.range == NextScale(Lis3mdlSensor.Scales, old(chart.scale),
        raw1.x - old(chart.zeroX), raw1.y - old(chart.zeroY), raw1.z - old(chart.zeroZ))
    ensures chip.taken == old(chip.taken) + 2 * DefaultSamples
    ensures chart.Valid()
    ensures var raw2 := TickAverage(chip.respond, chip.range, old(chip.taken) + DefaultSamples);
      var e := chart.history[|chart.history| - 1];
      e.Sample? && e.x == raw2.x - old(chart.zeroX) && e.y == raw2.y - old(chart.zeroY) && e.z == raw2.z - old(chart.zeroZ)
  {
    ghost var s0 := chart.State();
    ghost var raw1 := TickAverage(chip.respond, chart.scale, chip.taken);
    ReadSensorLis3mdl(chart, chip, sqrt);
    RecordedEffect(s0, chart.scales, raw1, sqrt(CorrectedSquares(s0, raw1)));
    ghost var s1 := chart.State();
    ghost var raw2 := TickAverage(chip.respond, chart.scale, chip.taken);
    ReadSensorLis3mdl(chart, chip, sqrt);
    RecordedEffect(s1, chart.scales, raw2, sqrt(CorrectedSquares(s1, raw2)));
  }
}
