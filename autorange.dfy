/**
 * The one-step auto-range rule of the chart's `read_sensor`: after each reading the index
 * into the sensor's table of full-scale ranges (microtesla) moves up when the largest axis
 * value exceeds 90% of the current range, down when it is below 90% of the next lower
 * range, and otherwise stays. The largest axis value is the SIGNED `max(x, y, z)` of the
 * source, not the largest absolute value.
 */
module AutoRange {

  /** Fraction of a full-scale range at which the rule switches. */
  const Threshold: real := 0.9

  /** `scale` can index the table; an empty table (auto-ranging off) keeps it where it is. */
  predicate InRange(scales: seq<int>, scale: int) {
    0 <= scale && (scales != [] ==> scale < |scales|)
  }

  /** Strictly increasing full-scale tables: index 0 is the narrowest range. */
  predicate StrictlyIncreasing(scales: seq<int>) {
    forall i, j :: 0 <= i < j < |scales| ==> scales[i] < scales[j]
  }

  /** Python's `max(x, y, z)`. */
  function Max3(x: real, y: real, z: real): (m: real)
    ensures m >= x && m >= y && m >= z
    ensures m == x || m == y || m == z
  {
    if x >= y && x >= z then x else if y >= z then y else z
  }

  /** The scale index after one reading with corrected axis values `x`, `y`, `z`. */
  function NextScale(scales: seq<int>, scale: int, x: real, y: real, z: real): (r: int)
    requires InRange(scales, scale)
    ensures InRange(scales, r)
    ensures scales == [] ==> r == scale
    ensures scale - 1 <= r <= scale + 1
  {
    if scales == [] then scale
    else
      var maxMag := Max3(x, y, z);
      var lower := if scale - 1 > 0 then scale - 1 else 0;
      if maxMag > Threshold * scales[scale] as real then
        (if |scales| - 1 < scale + 1 then |scales| - 1 else scale + 1)
      else if maxMag < Threshold * scales[lower] as real then lower
      else scale
  }

  /** Above the threshold of a range that is not the last, the rule widens by exactly one step. */
  lemma WidensAboveThreshold(scales: seq<int>, scale: int, x: real, y: real, z: real)
    requires 0 <= scale < |scales| - 1
    requires Max3(x, y, z) > Threshold * scales[scale] as real
    ensures NextScale(scales, scale, x, y, z) == scale + 1
  {
  }

  /** A one-entry table pins the index at 0 whatever the field. */
  lemma SingleRangeStaysAtZero(scales: seq<int>, x: real, y: real, z: real)
    requires |scales| == 1
    ensures NextScale(scales, 0, x, y, z) == 0
  {
  }

  /**
   * No bounce after widening: a reading that moved the index up cannot move it back down
   * when it is fed again, because the new lower threshold is the one it just exceeded.
   */
  lemma NoBounceAfterWiden(scales: seq<int>, scale: int, x: real, y: real, z: real)
    requires InRange(scales, scale)
    requires NextScale(scales, scale, x, y, z) > scale
    ensures NextScale(scales, NextScale(scales, scale, x, y, z), x, y, z) >= NextScale(scales, scale, x, y, z)
  {
  }

  /** No bounce after narrowing: the reading was below the range it moved to, so it cannot widen again. */
  lemma NoBounceAfterNarrow(scales: seq<int>, scale: int, x: real, y: real, z: real)
    requires InRange(scales, scale)
    requires NextScale(scales, scale, x, y, z) < scale
    ensures NextScale(scales, NextScale(scales, scale, x, y, z), x, y, z) <= NextScale(scales, scale, x, y, z)
  {
  }

  /**
   * The code uses the signed maximum rather than the largest absolute value: a field pointing
   * the negative way on every axis never widens the range, however strong it is.
   */
  lemma NegativeFieldNeverWidens(scales: seq<int>, scale: int, x: real, y: real, z: real)
    requires InRange(scales, scale)
    requires forall i :: 0 <= i < |scales| ==> scales[i] >= 0
    requires x <= 0.0 && y <= 0.0 && z <= 0.0
    ensures NextScale(scales, scale, x, y, z) <= scale
  {
  }

  /** The index after `k` readings of the same field. */
  function Iterate(scales: seq<int>, scale: int, x: real, y: real, z: real, k: nat): (r: int)
    requires InRange(scales, scale)
    ensures InRange(scales, r)
    decreases k
  {
    if k == 0 then scale else Iterate(scales, NextScale(scales, scale, x, y, z), x, y, z, k - 1)
  }

  /** Once a reading leaves the index where it is, feeding it again changes nothing. */
  lemma {:induction false} FixedPointStays(scales: seq<int>, scale: int, x: real, y: real, z: real, k: nat)
    requires InRange(scales, scale)
    requires NextScale(scales, scale, x, y, z) == scale
    ensures Iterate(scales, scale, x, y, z, k) == scale
    decreases k
  {
    if k > 0 {
      FixedPointStays(scales, scale, x, y, z, k - 1);
    }
  }

  /** Walking up under a steady field: after `k` readings the walk has settled or climbed `k` steps. */
  lemma {:induction false} ClimbOrSettle(scales: seq<int>, scale: int, x: real, y: real, z: real, k: nat)
    requires InRange(scales, scale)
    requires NextScale(scales, scale, x, y, z) >= scale
    ensures var s := Iterate(scales, scale, x, y, z, k);
      NextScale(scales, s, x, y, z) == s || s >= scale + k
    decreases k
  {
    if k > 0 {
      var next := NextScale(scales, scale, x, y, z);
      if next == scale {
        FixedPointStays(scales, scale, x, y, z, k);
      } else {
        NoBounceAfterWiden(scales, scale, x, y, z);
        ClimbOrSettle(scales, next, x, y, z, k - 1);
      }
    }
  }

  /** Walking down under a steady field: after `k` readings the walk has settled or descended `k` steps. */
  lemma {:induction false} DescendOrSettle(scales: seq<int>, scale: int, x: real, y: real, z: real, k: nat)
    requires InRange(scales, scale)
    requires NextScale(scales, scale, x, y, z) <= scale
    ensures var s := Iterate(scales, scale, x, y, z, k);
      NextScale(scales, s, x, y, z) == s || s <= scale - k
    decreases k
  {
    if k > 0 {
      var next := NextScale(scales, scale, x, y, z);
      if next == scale {
        FixedPointStays(scales, scale, x, y, z, k);
      } else {
        NoBounceAfterNarrow(scales, scale, x, y, z);
        DescendOrSettle(scales, next, x, y, z, k - 1);
      }
    }
  }

  /**
   * Under a steady field the range walk never oscillates: within as many readings as the
   * table has entries it reaches an index that the same reading leaves unchanged.
   */
  lemma SettlesWithinTableLength(scales: seq<int>, scale: int, x: real, y: real, z: real)
    requires InRange(scales, scale)
    ensures var s := Iterate(scales, scale, x, y, z, |scales|);
      NextScale(scales, s, x, y, z) == s
  {
    if NextScale(scales, scale, x, y, z) >= scale {
      ClimbOrSettle(scales, scale, x, y, z, |scales|);
    } else {
      DescendOrSettle(scales, scale, x, y, z, |scales|);
    }
  }
}
