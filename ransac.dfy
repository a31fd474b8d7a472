/**
 * `ransac`: fits a plane to a cloud of landmark points by repeatedly
 * drawing three distinct points at random, taking the normal of the plane
 * through them, counting the points within `thres` of that plane, and
 * keeping the sample with the most inliers among those whose normal is
 * orthogonal to the two given normals.
 */
module Ransac {
  import opened Geometry

  /** `orthogonal = 0.001f`: how far from zero `normal . normal_B` may be. */
  const OrthogonalTolerance: real := 0.001

  /** The three point indices drawn in one iteration (`idx1`, `idx2`, `idx3`). */
  datatype Trial = Trial(first: int, second: int, third: int)

  /** The draws the source's `do ... while` loops guarantee: three distinct indices of the cloud. */
  predicate ValidTrial(t: Trial, n: int) {
    0 <= t.first < n && 0 <= t.second < n && 0 <= t.third < n
    && t.first != t.second && t.first != t.third && t.second != t.third
  }

  predicate ValidTrials(trials: seq<Trial>, n: int) {
    forall k :: 0 <= k < |trials| ==> ValidTrial(trials[k], n)
  }

  /** `crt_normal = (B - A) x (C - A)`. */
  function SampleNormal(points: seq<Vec3>, t: Trial): Vec3
    requires ValidTrial(t, |points|)
  {
    var a := points[t.first];
    Cross(Sub(points[t.second], a), Sub(points[t.third], a))
  }

  /**
   * `|normal . (p - a)| / sqrt(normal . normal) < thres`, squared so that it
   * stays in the reals. A zero normal makes the source's distance NaN, which
   * fails the comparison; here `0 < 0` fails the same way.
   */
  predicate IsInlier(normal: Vec3, a: Vec3, p: Vec3, thres: real) {
    var dist := Dot(normal, Sub(p, a));
    thres > 0.0 && dist * dist < thres * thres * Dot(normal, normal)
  }

  /** The number of inliers among the first k points. */
  function InlierCount(points: seq<Vec3>, normal: Vec3, a: Vec3, thres: real, k: nat): (c: nat)
    requires k <= |points|
    ensures c <= k
  {
    if k == 0 then 0
    else InlierCount(points, normal, a, thres, k - 1) + (if IsInlier(normal, a, points[k - 1], thres) then 1 else 0)
  }

  /** The inlier count of the plane through a trial's sample. */
  function TrialInliers(points: seq<Vec3>, t: Trial, thres: real): nat
    requires ValidTrial(t, |points|)
  {
    InlierCount(points, SampleNormal(points, t), points[t.first], thres, |points|)
  }

  predicate Orthogonal(normal: Vec3, normalB: Vec3, normalR: Vec3) {
    Abs(Dot(normal, normalB)) < OrthogonalTolerance && Abs(Dot(normal, normalR)) < OrthogonalTolerance
  }

  /** A trial the acceptance test can take: enough inliers and orthogonal to both normals. */
  predicate Admissible(points: seq<Vec3>, t: Trial, thres: real, minInliers: int, normalB: Vec3, normalR: Vec3)
    requires ValidTrial(t, |points|)
  {
    TrialInliers(points, t, thres) >= minInliers && Orthogonal(SampleNormal(points, t), normalB, normalR)
  }

  /** The best model so far: `best_inliers`, `best_normal`, `best_A`. */
  datatype Best = Best(inliers: nat, normal: Vec3, a: Vec3)

  const NoModel: Best := Best(0, Zero, Zero)

  /** One iteration's update of the best model. */
  function Step(points: seq<Vec3>, thres: real, minInliers: int, normalB: Vec3, normalR: Vec3, best: Best, t: Trial): Best
    requires ValidTrial(t, |points|)
  {
    var count := TrialInliers(points, t, thres);
    if Admissible(points, t, thres, minInliers, normalB, normalR) && count > best.inliers
    then Best(count, SampleNormal(points, t), points[t.first])
    else best
  }

  /** The best model after the given trials. */
  function SelectBest(points: seq<Vec3>, trials: seq<Trial>, thres: real, minInliers: int, normalB: Vec3, normalR: Vec3): Best
    requires ValidTrials(trials, |points|)
    decreases |trials|
  {
    if |trials| == 0 then NoModel
    else
      Step(points, thres, minInliers, normalB, normalR,
           SelectBest(points, trials[..|trials| - 1], thres, minInliers, normalB, normalR), trials[|trials| - 1])
  }

  /** The two elements `ransac` returns for a cloud of at least three points. */
  function Result(best: Best): seq<Vec3> {
    [best.normal, best.a]
  }

  // ---------------------------------------------------------------------
  // What the selected model is

  lemma InlierCountAtLeast(points: seq<Vec3>, normal: Vec3, a: Vec3, thres: real, k: nat, s: set<int>)
    requires k <= |points|
    requires forall i :: i in s ==> 0 <= i < k && IsInlier(normal, a, points[i], thres)
    ensures |s| <= InlierCount(points, normal, a, thres, k)
    decreases k
  {
    if k > 0 {
      var rest := s - {k - 1};
      InlierCountAtLeast(points, normal, a, thres, k - 1, rest);
      if k - 1 in s {
        assert s == rest + {k - 1};
      } else {
        assert s == rest;
      }
    } else {
      assert forall i :: i !in s;
      assert s == {};
    }
  }

  lemma ScaledPositive(t: real, q: real)
    requires t > 0.0
    requires q > 0.0
    ensures t * t * q > 0.0
  {
    SquarePositive(t);
  }

  /** A point on the plane is an inlier when the normal is non-zero and the threshold positive. */
  lemma OnPlaneIsInlier(normal: Vec3, a: Vec3, p: Vec3, thres: real)
    requires thres > 0.0 && normal != Zero && Dot(normal, Sub(p, a)) == 0.0
    ensures IsInlier(normal, a, p, thres)
  {
    var dist := Dot(normal, Sub(p, a));
    calc {
      dist * dist;
    ==
      0.0;
    < { DotSelfPositive(normal); ScaledPositive(thres, Dot(normal, normal)); }
      thres * thres * Dot(normal, normal);
    }
  }

  /**
   * The three sampled points lie on their own plane, so for a non-degenerate
   * sample (non-zero normal) and a positive threshold each of them is an
   * inlier and the count is at least 3.
   */
  lemma SampleAtLeastThreeInliers(points: seq<Vec3>, t: Trial, thres: real)
    requires ValidTrial(t, |points|) && thres > 0.0 && SampleNormal(points, t) != Zero
    ensures TrialInliers(points, t, thres) >= 3
  {
    var n := SampleNormal(points, t);
    var a := points[t.first];
    var ab, ac := Sub(points[t.second], a), Sub(points[t.third], a);
    assert Dot(n, ab) == 0.0 && Dot(n, ac) == 0.0;
    assert Sub(a, a) == Zero;
    OnPlaneIsInlier(n, a, points[t.first], thres);
    OnPlaneIsInlier(n, a, points[t.second], thres);
    OnPlaneIsInlier(n, a, points[t.third], thres);
    var s := {t.first, t.second, t.third};
    assert |s| == 3;
    InlierCountAtLeast(points, n, a, thres, |points|, s);
  }

  /**
   * The selected model is the first trial with the largest inlier count
   * among the admissible ones; when no admissible trial has an inlier, the
   * result is the zero model the source starts from.
   */
  lemma {:induction false} SelectBestIsFirstMaximum(points: seq<Vec3>, trials: seq<Trial>, thres: real, minInliers: int,
                                                    normalB: Vec3, normalR: Vec3)
    requires ValidTrials(trials, |points|)
    ensures var b := SelectBest(points, trials, thres, minInliers, normalB, normalR);
            (forall k :: 0 <= k < |trials| && Admissible(points, trials[k], thres, minInliers, normalB, normalR) ==>
               TrialInliers(points, trials[k], thres) <= b.inliers)
            && (b.inliers == 0 ==> b == NoModel)
            && (b.inliers > 0 ==>
                  exists k :: 0 <= k < |trials| && Admissible(points, trials[k], thres, minInliers, normalB, normalR)
                    && b == Best(TrialInliers(points, trials[k], thres), SampleNormal(points, trials[k]), points[trials[k].first])
                    && forall k' :: 0 <= k' < k && Admissible(points, trials[k'], thres, minInliers, normalB, normalR) ==>
                         TrialInliers(points, trials[k'], thres) < b.inliers)
    decreases |trials|
  {
    if |trials| > 0 {
      var prefix := trials[..|trials| - 1];
      assert ValidTrials(prefix, |points|);
      SelectBestIsFirstMaximum(points, prefix, thres, minInliers, normalB, normalR);
      var prev := SelectBest(points, prefix, thres, minInliers, normalB, normalR);
      var b := SelectBest(points, trials, thres, minInliers, normalB, normalR);
      var last := |trials| - 1;
      forall k | 0 <= k < last
        ensures trials[k] == prefix[k]
      {
      }
      if b != prev {
        assert b == Best(TrialInliers(points, trials[last], thres), SampleNormal(points, trials[last]), points[trials[last].first]);
      } else if b.inliers > 0 {
        var k :| 0 <= k < |prefix| && Admissible(points, prefix[k], thres, minInliers, normalB, normalR)
                 && prev == Best(TrialInliers(points, prefix[k], thres), SampleNormal(points, prefix[k]), points[prefix[k].first])
                 && forall k' :: 0 <= k' < k && Admissible(points, prefix[k'], thres, minInliers, normalB, normalR) ==>
                      TrialInliers(points, prefix[k'], thres) < prev.inliers;
        assert trials[k] == prefix[k];
      }
    }
  }

  /** The model has no inlier exactly when no admissible trial had one. */
  lemma SelectBestZeroIff(points: seq<Vec3>, trials: seq<Trial>, thres: real, minInliers: int, normalB: Vec3, normalR: Vec3)
    requires ValidTrials(trials, |points|)
    ensures SelectBest(points, trials, thres, minInliers, normalB, normalR) == NoModel <==>
              forall k :: 0 <= k < |trials| && Admissible(points, trials[k], thres, minInliers, normalB, normalR) ==>
                TrialInliers(points, trials[k], thres) == 0
  {
    SelectBestIsFirstMaximum(points, trials, thres, minInliers, normalB, normalR);
  }

  /** The best model never claims more inliers than there are points. */
  lemma {:induction false} SelectBestBounded(points: seq<Vec3>, trials: seq<Trial>, thres: real, minInliers: int,
                                             normalB: Vec3, normalR: Vec3)
    requires ValidTrials(trials, |points|)
    ensures SelectBest(points, trials, thres, minInliers, normalB, normalR).inliers <= |points|
    decreases |trials|
  {
    if |trials| > 0 {
      var prefix := trials[..|trials| - 1];
      assert ValidTrials(prefix, |points|);
      SelectBestBounded(points, prefix, thres, minInliers, normalB, normalR);
    }
  }

  // ---------------------------------------------------------------------
  // The loops

  /** The inner loop: the inliers of the plane through `a` with normal `normal`. */
  method CountInliers(points: seq<Vec3>, normal: Vec3, a: Vec3, thres: real) returns (inliers: nat)
    ensures inliers == InlierCount(points, normal, a, thres, |points|)
  {
    inliers := 0;
    var k := 0;
    while k < |points|
      invariant 0 <= k <= |points|
      invariant inliers == InlierCount(points, normal, a, thres, k)
    {
      var v := Sub(points[k], a);
      var dist := Dot(normal, v);
      if thres > 0.0 && dist * dist < thres * thres * Dot(normal, normal) {
        inliers := inliers + 1;
      }
      k := k + 1;
    }
  }

  /**
   * `ransac(points, min, iter, thres, min_inliers, normal_B, normal_R)`.
   * The random draws are nondeterministic choices, recorded in the ghost
   * `trials`; `min` is accepted and unused, as in the source.
   */
  method Ransac(points: seq<Vec3>, min: int, iter: int, thres: real, minInliers: int, normalB: Vec3, normalR: Vec3)
    returns (res: seq<Vec3>, ghost trials: seq<Trial>)
    ensures |points| < 3 ==> res == []
    ensures |points| >= 3 ==>
              ValidTrials(trials, |points|) && |trials| == (if iter < 0 then 0 else iter)
              && res == Result(SelectBest(points, trials, thres, minInliers, normalB, normalR))
  {
    var n := |points|;
    trials := [];
    if n < 3 {
      return [], [];
    }
    var bestInliers: nat, bestNormal, bestA := 0, Zero, Zero;
    var i := 0;
    while i < iter
      invariant 0 <= i <= (if iter < 0 then 0 else iter)
      invariant |trials| == i && ValidTrials(trials, n)
      invariant Best(bestInliers, bestNormal, bestA) == SelectBest(points, trials, thres, minInliers, normalB, normalR)
    {
      assert ValidTrial(Trial(0, 1, 2), n);
      var t: Trial :| ValidTrial(t, n);
      assert ValidTrial(t, n);
      var idx1, idx2, idx3 := t.first, t.second, t.third;
      var a := points[idx1];
      var crtNormal := Cross(Sub(points[idx2], a), Sub(points[idx3], a));
      var inliers := CountInliers(points, crtNormal, a, thres);
      if inliers >= minInliers && inliers > bestInliers
         && Abs(Dot(crtNormal, normalB)) < OrthogonalTolerance && Abs(Dot(crtNormal, normalR)) < OrthogonalTolerance {
        bestInliers, bestNormal, bestA := inliers, crtNormal, a;
      }
      ghost var before := trials;
      trials := trials + [t];
      assert trials[..|trials| - 1] == before;
      i := i + 1;
    }
    res := [bestNormal, bestA];
  }
}
