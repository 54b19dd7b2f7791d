/**
 * The oversampling average that every sensor variant's `read` performs on the device:
 * `samples` readings are summed per axis in a loop and the sums are divided by `samples`.
 * Readings are exact reals (microtesla); the floating-point rounding of the device is not modelled.
 */
module Oversample {
  import opened Results

  /** A three-axis field reading in microtesla, as the `(x, y, z)` tuples of the source. */
  datatype Vec3 = Vec3(x: real, y: real, z: real) {
    function Plus(other: Vec3): Vec3 {
      Vec3(x + other.x, y + other.y, z + other.z)
    }

    function Get(a: Axis): real {
      match a
      case X => x
      case Y => y
      case Z => z
    }
  }

  datatype Axis = X | Y | Z

  const Zero := Vec3(0.0, 0.0, 0.0)

  /** Number of loop iterations of `for _ in range(samples)`. */
  function Iterations(samples: int): nat {
    if samples < 0 then 0 else samples
  }

  /** Per-axis sum of the readings, accumulated front to back as the sampling loop does. */
  function Sum(s: seq<Vec3>): Vec3 {
    if s == [] then Zero else Sum(s[..|s| - 1]).Plus(s[|s| - 1])
  }

  /**
   * What a variant's `read` returns when the device delivers `readings` in order:
   * the first `samples` readings summed per axis and divided by `samples`. Dividing by
   * zero raises; a negative count skips the loop and divides the zero sums (Python's
   * `0 / -n`, a signed zero, is the real 0 here).
   */
  function Average(readings: seq<Vec3>, samples: int): Result<Vec3>
    requires samples <= |readings|
  {
    if samples == 0 then Err(ZeroDivisionError)
    else
      var total := Sum(readings[..Iterations(samples)]);
      Ok(Vec3(total.x / samples as real, total.y / samples as real, total.z / samples as real))
  }

  /** Summing `n` copies of one reading gives `n` times that reading. */
  lemma {:induction false} SumOfConstant(s: seq<Vec3>, c: Vec3)
    requires forall i :: 0 <= i < |s| ==> s[i] == c
    ensures Sum(s) == Vec3(|s| as real * c.x, |s| as real * c.y, |s| as real * c.z)
  {
    if s != [] {
      SumOfConstant(s[..|s| - 1], c);
    }
  }

  /** `n * v` as a sum of `n` copies of `v`, so that bounds on sums stay linear. */
  function Times(n: nat, v: real): real {
    if n == 0 then 0.0 else Times(n - 1, v) + v
  }

  lemma {:induction false} TimesIsProduct(n: nat, v: real)
    ensures Times(n, v) == n as real * v
  {
    if n > 0 {
      TimesIsProduct(n - 1, v);
      assert n as real * v == (n - 1) as real * v + v;
    }
  }

  /** A sum of readings whose `a` components all lie in `[lo, hi]` lies in that interval scaled by their number. */
  lemma {:induction false} SumWithin(s: seq<Vec3>, a: Axis, lo: real, hi: real)
    requires forall i :: 0 <= i < |s| ==> lo <= s[i].Get(a) <= hi
    ensures Times(|s|, lo) <= Sum(s).Get(a) <= Times(|s|, hi)
  {
    if s != [] {
      var init := s[..|s| - 1];
      assert forall i :: 0 <= i < |init| ==> init[i] == s[i];
      SumWithin(init, a, lo, hi);
      assert Sum(s).Get(a) == Sum(init).Get(a) + s[|s| - 1].Get(a);
    }
  }

  /** A steady field reads back unchanged: the average of constant readings is that reading. */
  lemma AverageOfConstant(readings: seq<Vec3>, samples: int, c: Vec3)
    requires 0 < samples <= |readings|
    requires forall i :: 0 <= i < samples ==> readings[i] == c
    ensures Average(readings, samples) == Ok(c)
  {
    var n := samples as real;
    assert Iterations(samples) == samples;
    SumOfConstant(readings[..samples], c);
    assert Sum(readings[..samples]) == Vec3(n * c.x, n * c.y, n * c.z);
    assert n * c.x / n == c.x && n * c.y / n == c.y && n * c.z / n == c.z;
  }

  /** The average of readings that lie in a box lies in the same box (per axis). */
  lemma AverageWithin(readings: seq<Vec3>, samples: int, lo: Vec3, hi: Vec3)
    requires 0 < samples <= |readings|
    requires forall i :: 0 <= i < samples ==>
      lo.x <= readings[i].x <= hi.x && lo.y <= readings[i].y <= hi.y && lo.z <= readings[i].z <= hi.z
    ensures Average(readings, samples).Ok?
    ensures var a := Average(readings, samples).value;
      lo.x <= a.x <= hi.x && lo.y <= a.y <= hi.y && lo.z <= a.z <= hi.z
  {
    assert Iterations(samples) == samples;
    assert forall i :: 0 <= i < samples ==> lo.x <= readings[i].Get(X) <= hi.x;
    assert forall i :: 0 <= i < samples ==> lo.y <= readings[i].Get(Y) <= hi.y;
    assert forall i :: 0 <= i < samples ==> lo.z <= readings[i].Get(Z) <= hi.z;
    AxisAverageWithin(readings, samples, X, lo.x, hi.x);
    AxisAverageWithin(readings, samples, Y, lo.y, hi.y);
    AxisAverageWithin(readings, samples, Z, lo.z, hi.z);
  }

  /** One axis of the average of readings in `[lo, hi]` lies in `[lo, hi]`. */
  lemma AxisAverageWithin(readings: seq<Vec3>, samples: int, a: Axis, lo: real, hi: real)
    requires 0 < samples <= |readings|
    requires forall i :: 0 <= i < samples ==> lo <= readings[i].Get(a) <= hi
    ensures lo <= Sum(readings[..samples]).Get(a) / samples as real <= hi
  {
    var prefix := readings[..samples];
    var t := Sum(prefix).Get(a);
    assert forall i :: 0 <= i < |prefix| ==> prefix[i] == readings[i];
    assert Times(samples, lo) <= t <= Times(samples, hi) by {
      SumWithin(prefix, a, lo, hi);
    }
    var n := samples as real;
    assert n > 0.0;
    assert Times(samples, lo) == n * lo by { TimesIsProduct(samples, lo); }
    assert Times(samples, hi) == n * hi by { TimesIsProduct(samples, hi); }
    DivideWithin(t, n, lo, hi);
  }

  lemma DivideWithin(t: real, n: real, lo: real, hi: real)
    requires n > 0.0 && n * lo <= t <= n * hi
    ensures lo <= t / n <= hi
  {
    assert t / n * n == t;
  }

  /** Only the first `samples` readings matter: what the device would deliver later is not read. */
  lemma AverageUsesOnlyFirstSamples(readings: seq<Vec3>, other: seq<Vec3>, samples: int)
    requires samples <= |readings| && samples <= |other|
    requires readings[..Iterations(samples)] == other[..Iterations(samples)]
    ensures Average(readings, samples) == Average(other, samples)
  {
  }

  /** The division after the sampling loop: the running sums divided by a non-zero count are the average. */
  lemma AverageOfTotal(readings: seq<Vec3>, samples: int, total: Vec3)
    requires samples != 0 && samples <= |readings|
    requires total == Sum(readings[..Iterations(samples)])
    ensures Average(readings, samples) == Ok(Vec3(total.x / samples as real, total.y / samples as real, total.z / samples as real))
  {
  }

  /** The loop step: summing one more reading adds it to the running sums. */
  lemma SumSnoc(s: seq<Vec3>, i: nat)
    requires i < |s|
    ensures Sum(s[..i + 1]) == Sum(s[..i]).Plus(s[i])
  {
    assert s[..i + 1][..i] == s[..i];
  }
}
