/** The LIS3MDL variant: four full-scale ranges, selected on the chip before every averaged reading. */
module Lis3mdlSensor {
  import opened Results
  import opened Oversample
  import opened AutoRange
  import opened SensorChip

  /** `LIS3MDL.scales`, in microtesla. */
  const Scales: seq<int> := [400, 800, 1200, 1600]

  /** The gauss ranges the chip's range setting 0..3 selects. */
  const GaussRanges: seq<int> := [4, 8, 12, 16]

  /** The table is increasing and entry `i` is the `i`-th gauss range in microtesla (1 G = 100 uT). */
  lemma ScalesAreGaussRanges()
    ensures |Scales| == |GaussRanges| == 4
    ensures StrictlyIncreasing(Scales)
    ensures forall i :: 0 <= i < 4 ==> Scales[i] == 100 * GaussRanges[i]
  {
  }

  /**
   * The on-device `read`: set the chip's range to `scale`, then sum `samples` readings per
   * axis and divide by `samples`. Every reading is taken under the new range.
   */
  method Read(chip: Chip, scale: int, samples: int) returns (r: Result<Vec3>)
    modifies chip
    ensures chip.range == scale
    ensures chip.taken == old(chip.taken) + Iterations(samples)
    ensures r == Average(Responses(chip.respond, scale, old(chip.taken), Iterations(samples)), samples)
  {
    chip.range := scale;
    ghost var readings := Responses(chip.respond, scale, chip.taken, Iterations(samples));
    var total := Zero;
    var i := 0;
    while i < Iterations(samples)
      invariant 0 <= i <= Iterations(samples)
      invariant chip.range == scale && chip.taken == old(chip.taken) + i
      invariant total == Sum(readings[..i])
    {
      var v := chip.Magnetic();
      SumSnoc(readings, i);
      total := total.Plus(v);
      i := i + 1;
    }
    assert readings[..Iterations(samples)] == readings;
    if samples == 0 {
      return Err(ZeroDivisionError);
    }
    AverageOfTotal(readings, samples, total);
    r := Ok(Vec3(total.x / samples as real, total.y / samples as real, total.z / samples as real));
  }

  /** A steady field reads back unchanged at every range: averaging constant readings gives that reading. */
  lemma SteadyFieldReadsBack(respond: (int, nat) -> Vec3, scale: int, start: nat, samples: int, c: Vec3)
    requires samples > 0
    requires forall k: nat :: start <= k < start + samples ==> respond(scale, k) == c
    ensures Average(Responses(respond, scale, start, Iterations(samples)), samples) == Ok(c)
  {
    var readings := Responses(respond, scale, start, Iterations(samples));
    assert forall i :: 0 <= i < samples ==> readings[i] == respond(scale, start + i);
    AverageOfConstant(readings, samples, c);
  }

  /** Zero samples raise ZeroDivisionError at the division, after the range has been set. */
  lemma ZeroSamplesRaise(respond: (int, nat) -> Vec3, scale: int, start: nat)
    ensures Average(Responses(respond, scale, start, Iterations(0)), 0) == Err(ZeroDivisionError)
  {
  }
}
