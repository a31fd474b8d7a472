/**
 * `compute_maximum`: the mode of one coordinate of a point set, read off a
 * histogram with bins one hundredth of a unit wide. Only points whose x
 * lies in `[interval_min, interval_max]` are counted. The histogram is
 * smoothed by ITK's `DiscreteGaussianImageFilter` and its highest bin found
 * by `MinimumMaximumImageCalculator`; the model receives those two steps as
 * one function from the raw histogram and the variance to a bin index.
 */
module Histogram {
  import opened Geometry

  /** Bins per unit of length. */
  const Scale: real := 100.0

  /** The points counted: `interval_min <= p[0] <= interval_max`. */
  predicate InInterval(p: Vec3, intervalMin: real, intervalMax: real) {
    intervalMin <= p.x <= intervalMax
  }

  /** The number of bins, `abs(max - min) + 1` stored into an unsigned size (truncated). */
  function Size(minScaled: real, maxScaled: real): (n: int)
    ensures n >= 1
    ensures n as real <= Abs(maxScaled - minScaled) + 1.0 < n as real + 1.0
  {
    (Abs(maxScaled - minScaled) + 1.0).Floor
  }

  /** The bin of a point, `floor(p[axis] * scale - min)`. */
  function Bin(p: Vec3, axis: int, minScaled: real): int
    requires 0 <= axis < 3
  {
    (Coord(p, axis) * Scale - minScaled).Floor
  }

  /** The number of counted points. */
  function IntervalCount(points: seq<Vec3>, intervalMin: real, intervalMax: real): (c: nat)
    ensures c <= |points|
  {
    if |points| == 0 then 0
    else IntervalCount(points[..|points| - 1], intervalMin, intervalMax)
         + (if InInterval(points[|points| - 1], intervalMin, intervalMax) then 1 else 0)
  }

  /** The number of counted points that fall into bin `k`. */
  function BinCount(points: seq<Vec3>, axis: int, minScaled: real, intervalMin: real, intervalMax: real, k: int): nat
    requires 0 <= axis < 3
  {
    if |points| == 0 then 0
    else
      var p := points[|points| - 1];
      BinCount(points[..|points| - 1], axis, minScaled, intervalMin, intervalMax, k)
      + (if InInterval(p, intervalMin, intervalMax) && Bin(p, axis, minScaled) == k then 1 else 0)
  }

  /**
   * The source writes the bins without a bounds check: every counted point
   * must fall inside the histogram.
   */
  ghost predicate BinsInRange(points: seq<Vec3>, axis: int, minScaled: real, size: int, intervalMin: real, intervalMax: real)
    requires 0 <= axis < 3
  {
    forall i :: 0 <= i < |points| && InInterval(points[i], intervalMin, intervalMax) ==> 0 <= Bin(points[i], axis, minScaled) < size
  }

  /** The unsmoothed histogram: bin `k` holds the number of counted points in it. */
  function Counts(points: seq<Vec3>, axis: int, minScaled: real, size: nat, intervalMin: real, intervalMax: real): (h: seq<real>)
    requires 0 <= axis < 3
    ensures |h| == size
  {
    seq(size, k requires 0 <= k < size => BinCount(points, axis, minScaled, intervalMin, intervalMax, k) as real)
  }

  function Sum(s: seq<real>): real {
    if |s| == 0 then 0.0 else Sum(s[..|s| - 1]) + s[|s| - 1]
  }

  // ---------------------------------------------------------------------
  // Properties

  /** Adding `d` to one entry adds `d` to the sum. */
  lemma {:induction false} SumUpdate(s: seq<real>, b: int, d: real)
    requires 0 <= b < |s|
    ensures Sum(s[b := s[b] + d]) == Sum(s) + d
  {
    var t := s[b := s[b] + d];
    if b < |s| - 1 {
      SumUpdate(s[..|s| - 1], b, d);
      assert t[..|t| - 1] == s[..|s| - 1][b := s[b] + d];
    } else {
      assert t[..|t| - 1] == s[..|s| - 1];
    }
  }

  /** One more point raises its bin by one when it is counted, and changes nothing otherwise. */
  lemma CountsStep(points: seq<Vec3>, axis: int, minScaled: real, size: nat, intervalMin: real, intervalMax: real)
    requires 0 <= axis < 3 && |points| > 0
    ensures var prefix, p := points[..|points| - 1], points[|points| - 1];
            var before := Counts(prefix, axis, minScaled, size, intervalMin, intervalMax);
            var b := Bin(p, axis, minScaled);
            Counts(points, axis, minScaled, size, intervalMin, intervalMax)
            == if InInterval(p, intervalMin, intervalMax) && 0 <= b < size then before[b := before[b] + 1.0] else before
  {
  }

  /**
   * Before smoothing the histogram holds every counted point once: its
   * total is the number of points whose x lies in the interval.
   */
  lemma {:induction false} CountsTotal(points: seq<Vec3>, axis: int, minScaled: real, size: nat, intervalMin: real, intervalMax: real)
    requires 0 <= axis < 3 && BinsInRange(points, axis, minScaled, size, intervalMin, intervalMax)
    ensures Sum(Counts(points, axis, minScaled, size, intervalMin, intervalMax)) == IntervalCount(points, intervalMin, intervalMax) as real
  {
    if |points| == 0 {
      var h := Counts(points, axis, minScaled, size, intervalMin, intervalMax);
      ZeroSum(h);
    } else {
      var prefix, p := points[..|points| - 1], points[|points| - 1];
      assert BinsInRange(prefix, axis, minScaled, size, intervalMin, intervalMax) by {
        forall i | 0 <= i < |prefix| && InInterval(prefix[i], intervalMin, intervalMax)
          ensures 0 <= Bin(prefix[i], axis, minScaled) < size
        {
          assert prefix[i] == points[i];
        }
      }
      CountsTotal(prefix, axis, minScaled, size, intervalMin, intervalMax);
      CountsStep(points, axis, minScaled, size, intervalMin, intervalMax);
      if InInterval(p, intervalMin, intervalMax) {
        var before := Counts(prefix, axis, minScaled, size, intervalMin, intervalMax);
        SumUpdate(before, Bin(p, axis, minScaled), 1.0);
      }
    }
  }

  lemma {:induction false} ZeroSum(s: seq<real>)
    requires forall k :: 0 <= k < |s| ==> s[k] == 0.0
    ensures Sum(s) == 0.0
  {
    if |s| > 0 {
      ZeroSum(s[..|s| - 1]);
    }
  }

  /**
   * The returned mode lies in `[min, max]` whenever the calculator's index
   * is a bin of the histogram and `min <= max`.
   */
  lemma ModeWithinRange(min: real, max: real, index: int)
    requires min <= max && 0 <= index < Size(min * Scale, max * Scale)
    ensures min <= (index as real + min * Scale) / Scale <= max
  {
    assert index as real <= max * Scale - min * Scale;
  }

  // ---------------------------------------------------------------------
  // The histogram buffer and the mode

  /** `FillBuffer(0)` and the counting loop over the points. */
  method FillHistogram(points: seq<Vec3>, axis: int, minScaled: real, size: nat, intervalMin: real, intervalMax: real)
    returns (histogram: array<real>)
    requires 0 <= axis < 3 && BinsInRange(points, axis, minScaled, size, intervalMin, intervalMax)
    ensures fresh(histogram)
    ensures histogram[..] == Counts(points, axis, minScaled, size, intervalMin, intervalMax)
  {
    histogram := new real[size](_ => 0.0);
    var i := 0;
    while i < |points|
      invariant 0 <= i <= |points|
      invariant histogram[..] == Counts(points[..i], axis, minScaled, size, intervalMin, intervalMax)
    {
      var p := points[i];
      CountsStep(points[..i + 1], axis, minScaled, size, intervalMin, intervalMax);
      assert points[..i + 1][..i] == points[..i];
      if p.x >= intervalMin && p.x <= intervalMax {
        var pixelIndex := (Coord(p, axis) * Scale - minScaled).Floor;
        histogram[pixelIndex] := histogram[pixelIndex] + 1.0;
      }
      i := i + 1;
    }
    assert points[..i] == points;
  }

  /**
   * `compute_maximum`: 0 for an axis outside 0..2, otherwise the position
   * of the calculator's bin, scaled back: `(index + min * 100) / 100`.
   */
  method ComputeMaximum(points: seq<Vec3>, axis: int, min: real, max: real, variance: real,
                        intervalMin: real, intervalMax: real, indexOfMaximum: (seq<real>, real) -> int)
    returns (r: real)
    requires 0 <= axis < 3 ==> BinsInRange(points, axis, min * Scale, Size(min * Scale, max * Scale), intervalMin, intervalMax)
    ensures !(0 <= axis < 3) ==> r == 0.0
    ensures 0 <= axis < 3 ==>
              var h := Counts(points, axis, min * Scale, Size(min * Scale, max * Scale), intervalMin, intervalMax);
              r == (indexOfMaximum(h, variance) as real + min * Scale) / Scale
    ensures 0 <= axis < 3 && min <= max ==>
              var h := Counts(points, axis, min * Scale, Size(min * Scale, max * Scale), intervalMin, intervalMax);
              0 <= indexOfMaximum(h, variance) < |h| ==> min <= r <= max
  {
    if axis != 0 && axis != 1 && axis != 2 {
      return 0.0;
    }
    var minScaled, maxScaled := min * Scale, max * Scale;
    var size := Size(minScaled, maxScaled);
    var histogram := FillHistogram(points, axis, minScaled, size, intervalMin, intervalMax);
    var maximum := indexOfMaximum(histogram[..], variance);
    r := (maximum as real + minScaled) / Scale;
    if min <= max && 0 <= maximum < size {
      ModeWithinRange(min, max, maximum);
    }
  }
}
