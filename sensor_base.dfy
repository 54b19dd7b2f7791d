/** What every sensor variant inherits: the default, empty, table of measurement ranges. */
module SensorBase {
  import opened AutoRange

  /** `Sensor.scales`: a variant with a single fixed range leaves the table empty. */
  const DefaultScales: seq<int> := []

  /** Number of readings a `read` averages when the caller gives none. */
  const DefaultSamples: int := 16

  /** With the default table the chart never changes the scale index, whatever the readings. */
  lemma {:induction false} DefaultScalesNeverMove(scale: int, x: real, y: real, z: real, k: nat)
    requires InRange(DefaultScales, scale)
    ensures NextScale(DefaultScales, scale, x, y, z) == scale
    ensures Iterate(DefaultScales, scale, x, y, z, k) == scale
  {
    FixedPointStays(DefaultScales, scale, x, y, z, k);
  }
}
