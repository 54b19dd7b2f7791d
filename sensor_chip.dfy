/**
 * The chip drivers the LIS3MDL and LIS2MDL variants construct on the board
 * (`adafruit_lis3mdl`, `adafruit_lis2mdl`) are not part of this model. A chip is seen only
 * through what its `magnetic` property returns: the `n`-th reading it delivers under full-scale
 * setting `range` is `respond(range, n)`, so a reading can depend on the range in force when
 * it is taken.
 */
module SensorChip {
  import opened Oversample

  /** The readings a chip delivers from its `start`-th reading on, `n` of them, under `range`. */
  function Responses(respond: (int, nat) -> Vec3, range: int, start: nat, n: nat): (r: seq<Vec3>)
    ensures |r| == n
  {
    seq(n, j requires 0 <= j < n => respond(range, start + j))
  }

  /** A chip driver: its `range` attribute and how many readings it has delivered. */
  class Chip {
    var range: int
    var taken: nat
    const respond: (int, nat) -> Vec3

    constructor(respond: (int, nat) -> Vec3)
      ensures this.respond == respond && range == 0 && taken == 0
    {
      this.respond := respond;
      range := 0;
      taken := 0;
    }

    /** `sensor.magnetic`: the next reading, taken under the current range. */
    method Magnetic() returns (v: Vec3)
      modifies this`taken
      ensures v == respond(range, old(taken))
      ensures taken == old(taken) + 1
    {
      v := respond(range, taken);
      taken := taken + 1;
    }
  }
}
