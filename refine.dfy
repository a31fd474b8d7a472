/**
 * The landmark centres after the histogram modes: the refinement rounds of
 * `on_detect_colors_clicked` and `on_analyze_clicked`, which move each
 * centre to the mean of its colour's points lying near the two other
 * centres, and the circle selection that gathers, for each centre, the
 * cloud points within `dist_circles` of it and blackens every valid pixel.
 *
 * Distances are compared squared: `sqrt(d) < r` holds exactly when `r > 0`
 * and `d < r * r`.
 */
module Refine {
  import opened Geometry
  import opened Images
  import opened Classify

  /**
   * A centre; `Undefined` is the NaN the source gets from dividing by a
   * zero count, against which every comparison is false.
   */
  datatype Centre = Defined(value: Vec3) | Undefined

  /** The blue, green and red centres. */
  datatype Centres = Centres(b: Centre, g: Centre, r: Centre)

  /** `sqrt(sum of squared differences) < dist`, false for an undefined centre. */
  predicate Near(c: Centre, p: Vec3, dist: real) {
    c.Defined? && 0.0 < dist && SqDist(c.value, p) < dist * dist
  }

  /** The extra condition on green points in `on_analyze_clicked`. */
  datatype Rule = Plain | RightOfEither

  /**
   * A point is taken when it lies within `dist` of both other centres and,
   * under `RightOfEither`, to the right (in x) of at least one of them.
   */
  predicate Accepts(rule: Rule, a: Centre, b: Centre, p: Vec3, dist: real) {
    Near(a, p, dist) && Near(b, p, dist)
    && (rule == Plain || (a.Defined? && a.value.x - p.x < 0.0) || (b.Defined? && b.value.x - p.x < 0.0))
  }

  /** The points taken, in order. */
  function Selected(points: seq<Vec3>, a: Centre, b: Centre, dist: real, rule: Rule): (s: seq<Vec3>)
    ensures |s| <= |points|
  {
    if |points| == 0 then []
    else
      var p := points[|points| - 1];
      Selected(points[..|points| - 1], a, b, dist, rule) + (if Accepts(rule, a, b, p, dist) then [p] else [])
  }

  function SumVec(points: seq<Vec3>): Vec3 {
    if |points| == 0 then Zero else Add(SumVec(points[..|points| - 1]), points[|points| - 1])
  }

  /** `center / nb`, component by component. */
  function Divide(v: Vec3, n: int): Vec3
    requires n > 0
  {
    Vec3(v.x / n as real, v.y / n as real, v.z / n as real)
  }

  /** The mean of the points, undefined (NaN) when there are none. */
  function Mean(points: seq<Vec3>): Centre {
    if |points| == 0 then Undefined else Defined(Divide(SumVec(points), |points|))
  }

  /** The axis-aligned box from `lo` to `hi`. */
  predicate InBox(lo: Vec3, hi: Vec3, p: Vec3) {
    lo.x <= p.x <= hi.x && lo.y <= p.y <= hi.y && lo.z <= p.z <= hi.z
  }

  /** Centre `c` is undefined or inside the box. */
  predicate CentreInBox(lo: Vec3, hi: Vec3, c: Centre) {
    c.Defined? ==> InBox(lo, hi, c.value)
  }

  // ---------------------------------------------------------------------
  // The rounds and the two schedules

  /** One round of `on_detect_colors_clicked`: blue, then red, then green, each from the newest centres. */
  function DetectRound(pts: Lists, cs: Centres, dist: real): Centres {
    var b := Mean(Selected(pts.blue, cs.g, cs.r, dist, Plain));
    var r := Mean(Selected(pts.red, b, cs.g, dist, Plain));
    var g := Mean(Selected(pts.green, b, r, dist, Plain));
    Centres(b, g, r)
  }

  /** One round of `on_analyze_clicked`: green (with its extra rule), then blue, then red. */
  function AnalyzeRound(pts: Lists, cs: Centres, dist: real): Centres {
    var g := Mean(Selected(pts.green, cs.b, cs.r, dist, RightOfEither));
    var b := Mean(Selected(pts.blue, g, cs.r, dist, Plain));
    var r := Mean(Selected(pts.red, b, g, dist, Plain));
    Centres(b, g, r)
  }

  const DetectStart: real := 0.08
  const DetectStop: real := 0.03
  const DetectStep: real := 0.01
  const AnalyzeStart: real := 1.5
  const AnalyzeStop: real := 0.05
  const AnalyzeStep: real := 0.02

  /** `for (dist = 0.08; dist > 0.03; dist -= 0.01)` from radius `dist` on. */
  function DetectFrom(pts: Lists, cs: Centres, dist: real): Centres
    decreases ((dist - DetectStop) / DetectStep).Floor
  {
    if dist > DetectStop then DetectFrom(pts, DetectRound(pts, cs, dist), dist - DetectStep) else cs
  }

  /** `for (dist = 1.5; dist > 0.05; dist -= 0.02)` from radius `dist` on. */
  function AnalyzeFrom(pts: Lists, cs: Centres, dist: real): Centres
    decreases ((dist - AnalyzeStop) / AnalyzeStep).Floor
  {
    if dist > AnalyzeStop then AnalyzeFrom(pts, AnalyzeRound(pts, cs, dist), dist - AnalyzeStep) else cs
  }

  predicate AllUndefined(cs: Centres) {
    cs.b == Undefined && cs.g == Undefined && cs.r == Undefined
  }

  // ---------------------------------------------------------------------
  // Properties

  /** A point is taken exactly when it is one of the points and accepted. */
  lemma {:induction false} SelectedIff(points: seq<Vec3>, a: Centre, b: Centre, dist: real, rule: Rule, p: Vec3)
    ensures p in Selected(points, a, b, dist, rule) <==> p in points && Accepts(rule, a, b, p, dist)
  {
    if |points| > 0 {
      var prefix := points[..|points| - 1];
      SelectedIff(prefix, a, b, dist, rule, p);
      assert points == prefix + [points[|points| - 1]];
    }
  }

  /** Nothing is near an undefined centre, so its partners' means are undefined. */
  lemma {:induction false} SelectedFromUndefined(points: seq<Vec3>, a: Centre, b: Centre, dist: real, rule: Rule)
    requires a == Undefined || b == Undefined
    ensures Selected(points, a, b, dist, rule) == []
    ensures Mean(Selected(points, a, b, dist, rule)) == Undefined
  {
    if |points| > 0 {
      SelectedFromUndefined(points[..|points| - 1], a, b, dist, rule);
    }
  }

  lemma DivideBounds(s: real, n: int, lo: real, hi: real)
    requires n > 0 && n as real * lo <= s <= n as real * hi
    ensures lo <= s / n as real <= hi
  {
    var q := s / n as real;
    assert q * n as real == s;
  }

  /** Coordinate `axis` of the sum of points bounded in that coordinate by l and h lies between n*l and n*h. */
  lemma {:induction false} SumCoordBounds(points: seq<Vec3>, axis: int, l: real, h: real)
    requires 0 <= axis < 3
    requires forall i :: 0 <= i < |points| ==> l <= Coord(points[i], axis) <= h
    ensures |points| as real * l <= Coord(SumVec(points), axis) <= |points| as real * h
  {
    if |points| > 0 {
      var prefix := points[..|points| - 1];
      assert forall i :: 0 <= i < |prefix| ==> prefix[i] == points[i];
      SumCoordBounds(prefix, axis, l, h);
      var m := |prefix| as real;
      assert Coord(SumVec(points), axis) == Coord(SumVec(prefix), axis) + Coord(points[|points| - 1], axis);
      assert (m + 1.0) * l == m * l + l;
      assert (m + 1.0) * h == m * h + h;
    }
  }

  /** The mean of coordinates bounded by `l` and `h` lies between them. */
  lemma MeanAxis(points: seq<Vec3>, axis: int, l: real, h: real)
    requires |points| > 0 && 0 <= axis < 3
    requires forall i :: 0 <= i < |points| ==> l <= Coord(points[i], axis) <= h
    ensures l <= Coord(SumVec(points), axis) / |points| as real <= h
  {
    SumCoordBounds(points, axis, l, h);
    DivideBounds(Coord(SumVec(points), axis), |points|, l, h);
  }

  /** The mean of points in a box is in the box. */
  lemma MeanInBox(points: seq<Vec3>, lo: Vec3, hi: Vec3)
    requires forall i :: 0 <= i < |points| ==> InBox(lo, hi, points[i])
    ensures CentreInBox(lo, hi, Mean(points))
  {
    if |points| > 0 {
      MeanAxis(points, 0, lo.x, hi.x);
      MeanAxis(points, 1, lo.y, hi.y);
      MeanAxis(points, 2, lo.z, hi.z);
    }
  }

  /** A refined centre is a mean of some of its own colour's points, so it stays in their box. */
  lemma SelectedMeanInBox(points: seq<Vec3>, a: Centre, b: Centre, dist: real, rule: Rule, lo: Vec3, hi: Vec3)
    requires forall i :: 0 <= i < |points| ==> InBox(lo, hi, points[i])
    ensures CentreInBox(lo, hi, Mean(Selected(points, a, b, dist, rule)))
  {
    var s := Selected(points, a, b, dist, rule);
    forall i | 0 <= i < |s|
      ensures InBox(lo, hi, s[i])
    {
      SelectedIff(points, a, b, dist, rule, s[i]);
      var j :| 0 <= j < |points| && points[j] == s[i];
    }
    MeanInBox(s, lo, hi);
  }

  ghost predicate Boxed(pts: Lists, lo: Vec3, hi: Vec3) {
    (forall i :: 0 <= i < |pts.blue| ==> InBox(lo, hi, pts.blue[i]))
    && (forall i :: 0 <= i < |pts.green| ==> InBox(lo, hi, pts.green[i]))
    && (forall i :: 0 <= i < |pts.red| ==> InBox(lo, hi, pts.red[i]))
  }

  /**
   * A NaN green or red centre makes all three NaN after one detection
   * round: blue is computed from green and red, red from blue, green from
   * blue and red. (A NaN blue centre alone is overwritten first.)
   */
  lemma DetectRoundPoisoned(pts: Lists, cs: Centres, dist: real)
    requires cs.g == Undefined || cs.r == Undefined
    ensures AllUndefined(DetectRound(pts, cs, dist))
  {
    SelectedFromUndefined(pts.blue, cs.g, cs.r, dist, Plain);
    var b := Mean(Selected(pts.blue, cs.g, cs.r, dist, Plain));
    SelectedFromUndefined(pts.red, b, cs.g, dist, Plain);
    SelectedFromUndefined(pts.green, b, Mean(Selected(pts.red, b, cs.g, dist, Plain)), dist, Plain);
  }

  /**
   * A NaN blue or red centre makes all three NaN after one analysis round:
   * green comes from blue and red, blue from green, red from blue.
   */
  lemma AnalyzeRoundPoisoned(pts: Lists, cs: Centres, dist: real)
    requires cs.b == Undefined || cs.r == Undefined
    ensures AllUndefined(AnalyzeRound(pts, cs, dist))
  {
    SelectedFromUndefined(pts.green, cs.b, cs.r, dist, RightOfEither);
    var g := Mean(Selected(pts.green, cs.b, cs.r, dist, RightOfEither));
    SelectedFromUndefined(pts.blue, g, cs.r, dist, Plain);
    var b := Mean(Selected(pts.blue, g, cs.r, dist, Plain));
    SelectedFromUndefined(pts.red, b, g, dist, Plain);
  }

  /** Once poisoned, the detection schedule ends with three NaN centres. */
  lemma {:induction false} DetectFromPoisoned(pts: Lists, cs: Centres, dist: real)
    requires (cs.g == Undefined || cs.r == Undefined) && dist > DetectStop
    ensures AllUndefined(DetectFrom(pts, cs, dist))
    decreases ((dist - DetectStop) / DetectStep).Floor
  {
    DetectRoundPoisoned(pts, cs, dist);
    if dist - DetectStep > DetectStop {
      DetectFromPoisoned(pts, DetectRound(pts, cs, dist), dist - DetectStep);
    }
  }

  /** Once poisoned, the analysis schedule ends with three NaN centres. */
  lemma {:induction false} AnalyzeFromPoisoned(pts: Lists, cs: Centres, dist: real)
    requires (cs.b == Undefined || cs.r == Undefined) && dist > AnalyzeStop
    ensures AllUndefined(AnalyzeFrom(pts, cs, dist))
    decreases ((dist - AnalyzeStop) / AnalyzeStep).Floor
  {
    AnalyzeRoundPoisoned(pts, cs, dist);
    if dist - AnalyzeStep > AnalyzeStop {
      AnalyzeFromPoisoned(pts, AnalyzeRound(pts, cs, dist), dist - AnalyzeStep);
    }
  }

  /** Every refined centre is undefined or inside a box holding all the points. */
  lemma {:induction false} DetectFromInBox(pts: Lists, cs: Centres, dist: real, lo: Vec3, hi: Vec3)
    requires Boxed(pts, lo, hi) && dist > DetectStop
    ensures var out := DetectFrom(pts, cs, dist);
            CentreInBox(lo, hi, out.b) && CentreInBox(lo, hi, out.g) && CentreInBox(lo, hi, out.r)
    decreases ((dist - DetectStop) / DetectStep).Floor
  {
    var next := DetectRound(pts, cs, dist);
    SelectedMeanInBox(pts.blue, cs.g, cs.r, dist, Plain, lo, hi);
    SelectedMeanInBox(pts.red, next.b, cs.g, dist, Plain, lo, hi);
    SelectedMeanInBox(pts.green, next.b, next.r, dist, Plain, lo, hi);
    if dist - DetectStep > DetectStop {
      DetectFromInBox(pts, next, dist - DetectStep, lo, hi);
    }
  }

  /** Every refined centre is undefined or inside a box holding all the points. */
  lemma {:induction false} AnalyzeFromInBox(pts: Lists, cs: Centres, dist: real, lo: Vec3, hi: Vec3)
    requires Boxed(pts, lo, hi) && dist > AnalyzeStop
    ensures var out := AnalyzeFrom(pts, cs, dist);
            CentreInBox(lo, hi, out.b) && CentreInBox(lo, hi, out.g) && CentreInBox(lo, hi, out.r)
    decreases ((dist - AnalyzeStop) / AnalyzeStep).Floor
  {
    var next := AnalyzeRound(pts, cs, dist);
    SelectedMeanInBox(pts.green, cs.b, cs.r, dist, RightOfEither, lo, hi);
    SelectedMeanInBox(pts.blue, next.g, cs.r, dist, Plain, lo, hi);
    SelectedMeanInBox(pts.red, next.b, next.g, dist, Plain, lo, hi);
    if dist - AnalyzeStep > AnalyzeStop {
      AnalyzeFromInBox(pts, next, dist - AnalyzeStep, lo, hi);
    }
  }

  // ---------------------------------------------------------------------
  // The loops

  /** Taking one more point adds it to the sum and the count exactly when it is accepted. */
  lemma SelectedStep(points: seq<Vec3>, i: int, a: Centre, b: Centre, dist: real, rule: Rule)
    requires 0 <= i < |points|
    ensures var before, after := Selected(points[..i], a, b, dist, rule), Selected(points[..i + 1], a, b, dist, rule);
            if Accepts(rule, a, b, points[i], dist)
            then SumVec(after) == Add(SumVec(before), points[i]) && |after| == |before| + 1
            else after == before
  {
    assert points[..i + 1][..i] == points[..i];
    var before, after := Selected(points[..i], a, b, dist, rule), Selected(points[..i + 1], a, b, dist, rule);
    if Accepts(rule, a, b, points[i], dist) {
      assert after[..|after| - 1] == before;
    } else {
      assert after == before + [];
    }
  }

  /**
   * One centre update: `nb = 0; center = 0`, the sum and count of the
   * accepted points, then `center = center / nb`.
   */
  method RefineCentre(points: seq<Vec3>, a: Centre, b: Centre, dist: real, rule: Rule) returns (c: Centre)
    ensures c == Mean(Selected(points, a, b, dist, rule))
  {
    var sum := Zero;
    var nb := 0;
    var i := 0;
    while i < |points|
      invariant 0 <= i <= |points|
      invariant sum == SumVec(Selected(points[..i], a, b, dist, rule))
      invariant nb == |Selected(points[..i], a, b, dist, rule)|
    {
      var p := points[i];
      SelectedStep(points, i, a, b, dist, rule);
      if Accepts(rule, a, b, p, dist) {
        sum := Add(sum, p);
        nb := nb + 1;
      }
      i := i + 1;
    }
    assert points[..i] == points;
    if nb == 0 {
      c := Undefined;
    } else {
      c := Defined(Divide(sum, nb));
    }
  }

  /** The refinement loop of `on_detect_colors_clicked`. */
  method RefineDetect(pts: Lists, start: Centres) returns (cs: Centres)
    ensures cs == DetectFrom(pts, start, DetectStart)
  {
    cs := start;
    var dist := DetectStart;
    while dist > DetectStop
      invariant DetectFrom(pts, cs, dist) == DetectFrom(pts, start, DetectStart)
      decreases ((dist - DetectStop) / DetectStep).Floor
    {
      var centreB := RefineCentre(pts.blue, cs.g, cs.r, dist, Plain);
      var centreR := RefineCentre(pts.red, centreB, cs.g, dist, Plain);
      var centreG := RefineCentre(pts.green, centreB, centreR, dist, Plain);
      cs := Centres(centreB, centreG, centreR);
      dist := dist - DetectStep;
    }
  }

  /** The refinement loop of `on_analyze_clicked`. */
  method RefineAnalyze(pts: Lists, start: Centres) returns (cs: Centres)
    ensures cs == AnalyzeFrom(pts, start, AnalyzeStart)
  {
    cs := start;
    var dist := AnalyzeStart;
    while dist > AnalyzeStop
      invariant AnalyzeFrom(pts, cs, dist) == AnalyzeFrom(pts, start, AnalyzeStart)
      decreases ((dist - AnalyzeStop) / AnalyzeStep).Floor
    {
      var centreG := RefineCentre(pts.green, cs.b, cs.r, dist, RightOfEither);
      var centreB := RefineCentre(pts.blue, centreG, cs.r, dist, Plain);
      var centreR := RefineCentre(pts.red, centreB, centreG, dist, Plain);
      cs := Centres(centreB, centreG, centreR);
      dist := dist - AnalyzeStep;
    }
  }

  // ---------------------------------------------------------------------
  // Circle selection

  /** `dist_circles`. */
  const DistCircles: real := 0.008

  const Black: Bgr := Bgr(0, 0, 0)

  /** The cloud's cells row after row. */
  function Flatten(cloud: seq<seq<Vec3>>): (s: seq<Vec3>) {
    if |cloud| == 0 then [] else Flatten(cloud[..|cloud| - 1]) + cloud[|cloud| - 1]
  }

  /** The valid points (`crt[2] > 0`) of `points` lying within `dist_circles` of `c`, in order. */
  function Within(points: seq<Vec3>, c: Centre): (s: seq<Vec3>)
    ensures |s| <= |points|
  {
    if |points| == 0 then []
    else
      var p := points[|points| - 1];
      Within(points[..|points| - 1], c) + (if p.z > 0.0 && Near(c, p, DistCircles) then [p] else [])
  }

  /** The three circles of a cloud around the three centres. */
  function Circles(points: seq<Vec3>, cs: Centres): Lists {
    Lists(Within(points, cs.b), Within(points, cs.g), Within(points, cs.r))
  }

  /** The cloud matches the colour image cell for cell. */
  ghost predicate SameShape(cloud: seq<seq<Vec3>>, colours: array2<Bgr>) {
    |cloud| == colours.Length0 && forall i :: 0 <= i < |cloud| ==> |cloud[i]| == colours.Length1
  }

  /** A point is in a circle exactly when it is a valid cloud point within `dist_circles` of the centre. */
  lemma {:induction false} WithinIff(points: seq<Vec3>, c: Centre, p: Vec3)
    ensures p in Within(points, c) <==> p in points && p.z > 0.0 && Near(c, p, DistCircles)
  {
    if |points| > 0 {
      var prefix := points[..|points| - 1];
      WithinIff(prefix, c, p);
      assert points == prefix + [points[|points| - 1]];
    }
  }

  /** The circle of an undefined centre is empty. */
  lemma {:induction false} WithinUndefined(points: seq<Vec3>)
    ensures Within(points, Undefined) == []
  {
    if |points| > 0 {
      WithinUndefined(points[..|points| - 1]);
    }
  }

  /** Selecting from two pieces is selecting from the first, then from the second. */
  lemma {:induction false} WithinAppend(xs: seq<Vec3>, ys: seq<Vec3>, c: Centre)
    ensures Within(xs + ys, c) == Within(xs, c) + Within(ys, c)
  {
    if |ys| == 0 {
      assert xs + ys == xs;
    } else {
      var last := ys[|ys| - 1];
      WithinAppend(xs, ys[..|ys| - 1], c);
      assert (xs + ys)[..|xs + ys| - 1] == xs + ys[..|ys| - 1];
    }
  }

  /**
   * The three tests are independent: a point near two centres lands in
   * both circles, and two equal centres give two equal circles.
   */
  lemma {:induction false} CirclesOverlap(points: seq<Vec3>, cs: Centres, p: Vec3)
    requires p in points && p.z > 0.0 && Near(cs.b, p, DistCircles) && Near(cs.g, p, DistCircles)
    ensures p in Circles(points, cs).blue && p in Circles(points, cs).green
  {
    WithinIff(points, cs.b, p);
    WithinIff(points, cs.g, p);
  }

  /** Looking at one more point adds it exactly when it is valid and near. */
  lemma WithinStep(points: seq<Vec3>, i: int, c: Centre)
    requires 0 <= i < |points|
    ensures Within(points[..i + 1], c)
            == Within(points[..i], c) + (if points[i].z > 0.0 && Near(c, points[i], DistCircles) then [points[i]] else [])
  {
    assert points[..i + 1][..i] == points[..i];
  }

  /**
   * The body of the circle loop for cell (row, col): a valid point blackens
   * its pixel and is pushed to the list of each centre within
   * `dist_circles` of it, the three tests independent of each other.
   */
  method VisitCell(line: seq<Vec3>, colours: array2<Bgr>, cs: Centres, row: int, col: int, ls: Lists)
    returns (out: Lists)
    requires 0 <= row < colours.Length0 && 0 <= col < colours.Length1 == |line|
    modifies colours
    ensures out.blue == ls.blue + (if line[col].z > 0.0 && Near(cs.b, line[col], DistCircles) then [line[col]] else [])
    ensures out.green == ls.green + (if line[col].z > 0.0 && Near(cs.g, line[col], DistCircles) then [line[col]] else [])
    ensures out.red == ls.red + (if line[col].z > 0.0 && Near(cs.r, line[col], DistCircles) then [line[col]] else [])
    ensures forall i, j :: 0 <= i < colours.Length0 && 0 <= j < colours.Length1 ==>
              colours[i, j] == if i == row && j == col && line[col].z > 0.0 then Black else old(colours[i, j])
  {
    out := ls;
    var crt := line[col];
    if crt.z > 0.0 {
      colours[row, col] := Black;
      if Near(cs.b, crt, DistCircles) {
        out := out.(blue := out.blue + [crt]);
      }
      if Near(cs.r, crt, DistCircles) {
        out := out.(red := out.red + [crt]);
      }
      if Near(cs.g, crt, DistCircles) {
        out := out.(green := out.green + [crt]);
      }
    }
  }

  /** One row of the circle loop. */
  method SelectRow(cloud: seq<seq<Vec3>>, colours: array2<Bgr>, cs: Centres, row: int, circles: Lists)
    returns (out: Lists)
    requires SameShape(cloud, colours) && 0 <= row < |cloud|
    modifies colours
    ensures out == Lists(circles.blue + Within(cloud[row], cs.b), circles.green + Within(cloud[row], cs.g),
                         circles.red + Within(cloud[row], cs.r))
    ensures forall i, j :: 0 <= i < colours.Length0 && 0 <= j < colours.Length1 ==>
              colours[i, j] == if i == row && cloud[row][j].z > 0.0 then Black else old(colours[i, j])
  {
    var line := cloud[row];
    out := circles;
    var col := 0;
    while col < colours.Length1
      invariant 0 <= col <= colours.Length1
      invariant out.blue == circles.blue + Within(line[..col], cs.b)
      invariant out.green == circles.green + Within(line[..col], cs.g)
      invariant out.red == circles.red + Within(line[..col], cs.r)
      invariant forall i, j :: 0 <= i < colours.Length0 && 0 <= j < colours.Length1 ==>
                  colours[i, j] == if i == row && j < col && line[j].z > 0.0 then Black else old(colours[i, j])
    {
      WithinStep(line, col, cs.b);
      WithinStep(line, col, cs.g);
      WithinStep(line, col, cs.r);
      out := VisitCell(line, colours, cs, row, col, out);
      col := col + 1;
    }
    assert line[..col] == line;
  }

  /**
   * The M2 loop over the whole cloud: every valid pixel is blackened and
   * pushed to the list of each centre it lies within `dist_circles` of.
   */
  method SelectCircles(cloud: seq<seq<Vec3>>, colours: array2<Bgr>, cs: Centres) returns (circles: Lists)
    requires SameShape(cloud, colours)
    modifies colours
    ensures circles == Circles(Flatten(cloud), cs)
    ensures forall i, j :: 0 <= i < colours.Length0 && 0 <= j < colours.Length1 ==>
              colours[i, j] == if cloud[i][j].z > 0.0 then Black else old(colours[i, j])
  {
    circles := Lists([], [], []);
    var row := 0;
    while row < colours.Length0
      invariant 0 <= row <= colours.Length0
      invariant circles == Circles(Flatten(cloud[..row]), cs)
      invariant forall i, j :: 0 <= i < colours.Length0 && 0 <= j < colours.Length1 ==>
                  colours[i, j] == if i < row && cloud[i][j].z > 0.0 then Black else old(colours[i, j])
    {
      var done := Flatten(cloud[..row]);
      assert cloud[..row + 1][..row] == cloud[..row];
      assert Flatten(cloud[..row + 1]) == done + cloud[row];
      WithinAppend(done, cloud[row], cs.b);
      WithinAppend(done, cloud[row], cs.g);
      WithinAppend(done, cloud[row], cs.r);
      circles := SelectRow(cloud, colours, cs, row, circles);
      row := row + 1;
    }
    assert cloud[..row] == cloud;
  }
}
