/**
 * Counting the particles of a fluid block.
 *
 * A fluid block is filled with a regular lattice whose pitch is the particle
 * diameter. Along each axis the lattice coordinates are those of numpy's
 * `arange(start, stop, step)`: start, start + step, start + 2*step, ... for as
 * long as the value has not reached `stop` (the start is included, the stop is
 * excluded). The block's particle count is the product of these per-axis
 * lengths. Everything here is exact real arithmetic; floating-point rounding is
 * not modelled.
 */
module Lattice {

  /** The smallest integer that is not below x (numpy's `ceil`, on exact reals). */
  function Ceil(x: real): (n: int)
    ensures n as real - 1.0 < x <= n as real
  {
    -((-x).Floor)
  }

  /** The k-th value of the progression start, start + step, start + 2*step, ... */
  function Nth(start: real, step: real, k: int): real
  {
    start + k as real * step
  }

  /** x has not yet reached stop when moving from the start in the direction of step. */
  predicate Before(x: real, stop: real, step: real)
  {
    if step > 0.0 then x < stop else x > stop
  }

  /** The progression is before stop exactly for the indices below ceil((stop - start) / step). */
  lemma BeforeExactlyBelowCeil(start: real, stop: real, step: real)
    requires step != 0.0
    ensures forall k: int :: k < Ceil((stop - start) / step) <==> Before(Nth(start, step, k), stop, step)
  {
    var x := (stop - start) / step;
    assert x * step == stop - start;
    forall k: int
      ensures k < Ceil(x) <==> Before(Nth(start, step, k), stop, step)
    {
      assert k < Ceil(x) <==> k as real < x;
      assert Nth(start, step, k) - start == k as real * step;
      if step > 0.0 {
        assert k as real < x <==> k as real * step < x * step;
      } else {
        assert k as real < x <==> k as real * step > x * step;
      }
    }
  }

  /**
   * numpy's `arange(start, stop, step)` for a non-zero step: the longest
   * prefix of the progression whose values all lie before stop.
   */
  function Arange(start: real, stop: real, step: real): (r: seq<real>)
    requires step != 0.0
    ensures forall k :: 0 <= k < |r| ==> r[k] == Nth(start, step, k) && Before(r[k], stop, step)
    ensures !Before(Nth(start, step, |r|), stop, step)
  {
    BeforeExactlyBelowCeil(start, stop, step);
    var n := Ceil((stop - start) / step);
    seq(if n > 0 then n else 0, k => Nth(start, step, k))
  }

  /** The length of arange counts exactly the k >= 0 with start + k*step before stop. */
  lemma ArangeLengthCounts(start: real, stop: real, step: real, k: nat)
    requires step != 0.0
    ensures k < |Arange(start, stop, step)| <==> Before(Nth(start, step, k), stop, step)
  {
    BeforeExactlyBelowCeil(start, stop, step);
  }

  /** With a positive step, arange is empty exactly when stop does not exceed start. */
  lemma ArangeEmpty(start: real, stop: real, step: real)
    requires step > 0.0
    ensures |Arange(start, stop, step)| == 0 <==> stop <= start
  {
    ArangeLengthCounts(start, stop, step, 0);
  }

  /**
   * The number of lattice points over the first n axes of the box
   * [start, end) at pitch d: the empty product 1, multiplied by the length
   * of the arange along each axis in turn.
   */
  function LatticeCount(start: seq<real>, end: seq<real>, d: real, n: nat): (r: nat)
    requires d != 0.0 && n <= |start| && n <= |end|
    ensures r > 0 <==> forall i :: 0 <= i < n ==> |Arange(start[i], end[i], d)| > 0
  {
    if n == 0 then 1
    else LatticeCount(start, end, d, n - 1) * |Arange(start[n - 1], end[n - 1], d)|
  }

  /** A block has no particles exactly when one of its axes is empty; this is not an error. */
  lemma {:induction false} LatticeCountZero(start: seq<real>, end: seq<real>, d: real, n: nat)
    requires d > 0.0 && n <= |start| && n <= |end|
    ensures LatticeCount(start, end, d, n) == 0 <==> exists i :: 0 <= i < n && end[i] <= start[i]
  {
    if n > 0 {
      LatticeCountZero(start, end, d, n - 1);
      ArangeEmpty(start[n - 1], end[n - 1], d);
      var a, b := LatticeCount(start, end, d, n - 1), |Arange(start[n - 1], end[n - 1], d)|;
      assert a * b == 0 <==> a == 0 || b == 0;
      if end[n - 1] <= start[n - 1] {
        assert exists i :: 0 <= i < n && end[i] <= start[i];
      }
      if exists i :: 0 <= i < n && end[i] <= start[i] {
        var i :| 0 <= i < n && end[i] <= start[i];
        assert i < n - 1 ==> exists j :: 0 <= j < n - 1 && end[j] <= start[j];
      }
    }
  }

  /** The unit square at pitch 0.02 holds 50 x 50 lattice points. */
  lemma UnitSquareHas2500Points()
    ensures LatticeCount([0.0, 0.0], [1.0, 1.0], 0.02, 2) == 2500
  {
    assert |Arange(0.0, 1.0, 0.02)| == 50;
  }

  /**
   * The stop is excluded: [0, 0.9) at pitch 0.3 has 3 points, [0, 1) has 4,
   * and [1.0, 1.3) at pitch 0.1 has 3.
   */
  lemma StopIsExcluded()
    ensures |Arange(0.0, 0.9, 0.3)| == 3
    ensures |Arange(0.0, 1.0, 0.3)| == 4
    ensures |Arange(1.0, 1.3, 0.1)| == 3
  {
  }
}
