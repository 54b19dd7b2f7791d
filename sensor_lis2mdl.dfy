/** The LIS2MDL variant: one fixed range; `read` averages without touching the chip's range. */
module Lis2mdlSensor {
  import opened Results
  import opened Oversample
  import opened AutoRange
  import opened SensorChip

  /** `LIS2MDL.scales`, in microtesla. */
  const Scales: seq<int> := [5000]

  /** With a one-entry table the chart keeps the scale index at 0. */
  lemma AutoRangePinned(x: real, y: real, z: real)
    ensures NextScale(Scales, 0, x, y, z) == 0
  {
    SingleRangeStaysAtZero(Scales, x, y, z);
  }

  /**
   * The on-device `read`: sum `samples` readings per axis and divide by `samples`. The
   * `scale` argument is accepted and ignored: the chip keeps whatever range it had.
   */
  method Read(chip: Chip, scale: int, samples: int) returns (r: Result<Vec3>)
    modifies chip
    ensures chip.range == old(chip.range)
    ensures chip.taken == old(chip.taken) + Iterations(samples)
    ensures r == Average(Responses(chip.respond, chip.range, old(chip.taken), Iterations(samples)), samples)
  {
    ghost var readings := Responses(chip.respond, chip.range, chip.taken, Iterations(samples));
    var total := Zero;
    var i := 0;
    while i < Iterations(samples)
      invariant 0 <= i <= Iterations(samples)
      invariant chip.range == old(chip.range) && chip.taken == old(chip.taken) + i
      invariant total == Sum(readings[..i])
    {
      var v := chip.Magnetic();
      SumSnoc(readings, i);
      total := total.Plus(v);
      i := i + 1;
    }
    assert readings[..Iterations(samples)] == readings;
    if samples == 0 {
      return Err(ZeroDivisionError);
    }
    AverageOfTotal(readings, samples, total);
    r := Ok(Vec3(total.x / samples as real, total.y / samples as real, total.z / samples as real));
  }

  /** Readings that lie in a box give an average in that box. */
  lemma AverageInBox(respond: (int, nat) -> Vec3, range: int, start: nat, samples: int, lo: Vec3, hi: Vec3)
    requires samples > 0
    requires forall k: nat :: start <= k < start + samples ==>
      var v := respond(range, k); lo.x <= v.x <= hi.x && lo.y <= v.y <= hi.y && lo.z <= v.z <= hi.z
    ensures var a := Average(Responses(respond, range, start, Iterations(samples)), samples);
      a.Ok? && lo.x <= a.value.x <= hi.x && lo.y <= a.value.y <= hi.y && lo.z <= a.value.z <= hi.z
  {
    var readings := Responses(respond, range, start, Iterations(samples));
    assert forall i :: 0 <= i < samples ==> readings[i] == respond(range, start + i);
    AverageWithin(readings, samples, lo, hi);
  }
}
