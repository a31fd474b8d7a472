/**
 * `density_probability`: splits the valid points of the cloud into the
 * green, blue and red landmark sets by the colour model with the highest
 * Gaussian density, and widens the scene's bounding box (the
 * `min_x`..`max_z` members) over every valid point.
 *
 * The densities are ITK's `GaussianMembershipFunction::Evaluate`, which the
 * model receives as a function of a colour model and a pixel.
 */
module Classify {
  import opened Geometry
  import opened Images

  /** A Gaussian colour model over (B, G, R): its mean and covariance. */
  datatype Gaussian = Gaussian(mean: Vec3, covariance: Mat3)

  const GreenModel: Gaussian := Gaussian(
    Vec3(89.98476454293629, 113.5203139427516, 69.0803324099723),
    Mat3(Vec3(159.8986598476079, 120.4950001662561, 89.770845322959),
         Vec3(120.4950001662561, 166.0926159679223, 111.4628187322072),
         Vec3(89.770845322959, 111.4628187322072, 109.2779419024306)))

  const BlueModel: Gaussian := Gaussian(
    Vec3(162.790273556231, 69.31408308004053, 59.89260385005066),
    Mat3(Vec3(247.0512529140221, 23.33132238862042, 9.271295842918425),
         Vec3(23.33132238862042, 18.81523226462756, 5.455210543550453),
         Vec3(9.271295842918425, 5.455210543550453, 26.2255481338454)))

  const RedModel: Gaussian := Gaussian(
    Vec3(55.29753265602322, 65.80188679245283, 210.0304789550073),
    Mat3(Vec3(88.49347722135754, 27.61482323301476, 44.47569203806028),
         Vec3(27.61482323301476, 41.77134622230733, 70.2651094011009),
         Vec3(44.47569203806028, 70.2651094011009, 343.3067633409943)))

  /** Below this best density a point belongs to no landmark. */
  const DensityThreshold: real := 0.000000001

  datatype Landmark = Green | Blue | Red | Unclassified

  function RMax(a: real, b: real): real {
    if a < b then b else a
  }

  function RMin(a: real, b: real): real {
    if a < b then a else b
  }

  /**
   * `res = max(G, B, R)` and the first of G, B, R equal to it, when it
   * exceeds the threshold.
   */
  function ClassifyDensities(dG: real, dB: real, dR: real): (c: Landmark)
    ensures c == Unclassified <==> RMax(dG, RMax(dB, dR)) <= DensityThreshold
    ensures c == Green <==> dG > DensityThreshold && dG >= dB && dG >= dR
    ensures c == Blue <==> dB > DensityThreshold && dB > dG && dB >= dR
    ensures c == Red <==> dR > DensityThreshold && dR > dG && dR > dB
  {
    var res := RMax(dG, RMax(dB, dR));
    if res > DensityThreshold then
      if res == dG then Green
      else if res == dB then Blue
      else Red
    else Unclassified
  }

  /** The landmark of a pixel colour under the three colour models. */
  function ClassifyColour(density: (Gaussian, Bgr) -> real, colour: Bgr): Landmark {
    ClassifyDensities(density(GreenModel, colour), density(BlueModel, colour), density(RedModel, colour))
  }

  /** The classifier the three models induce on pixel colours. */
  function Classifier(density: (Gaussian, Bgr) -> real): Bgr -> Landmark {
    c => ClassifyColour(density, c)
  }

  /** A valid point of the cloud with its colour. */
  datatype Sample = Sample(point: Vec3, colour: Bgr)

  /** Points with a positive depth are valid. */
  predicate IsValid(p: Vec3) {
    p.z > 0.0
  }

  /**
   * The cloud and its colour image have the same rows and columns; the
   * column count is that of the colour image, which bounds the pass.
   */
  ghost predicate Aligned(cloud: seq<seq<Vec3>>, colours: seq<seq<Bgr>>) {
    |cloud| == |colours|
    && forall i :: 0 <= i < |colours| ==> |colours[i]| == Width(colours) && |cloud[i]| == Width(colours)
  }

  function Width(colours: seq<seq<Bgr>>): nat {
    if |colours| == 0 then 0 else |colours[0]|
  }

  /** The sample of cell (row, col), when its point is valid. */
  ghost function CellSamples(cloud: seq<seq<Vec3>>, colours: seq<seq<Bgr>>, row: int, col: int): (s: seq<Sample>)
    requires Aligned(cloud, colours) && 0 <= row < |colours| && 0 <= col < Width(colours)
    ensures |s| <= 1
  {
    if IsValid(cloud[row][col]) then [Sample(cloud[row][col], colours[row][col])] else []
  }

  /** The valid samples of row `row`, columns 2..c-1. */
  ghost function RowSamples(cloud: seq<seq<Vec3>>, colours: seq<seq<Bgr>>, row: int, c: int): seq<Sample>
    requires Aligned(cloud, colours) && 0 <= row < |colours| && c <= Max(2, Width(colours))
    decreases c
  {
    if c <= 2 then [] else RowSamples(cloud, colours, row, c - 1) + CellSamples(cloud, colours, row, c - 1)
  }

  /** The valid samples of rows 2..r-1, each over columns 2..cols-3, in row-major order. */
  ghost function GridSamples(cloud: seq<seq<Vec3>>, colours: seq<seq<Bgr>>, r: int): seq<Sample>
    requires Aligned(cloud, colours) && r <= Max(2, |colours|)
    decreases r
  {
    if r <= 2 then [] else GridSamples(cloud, colours, r - 1) + RowSamples(cloud, colours, r - 1, Width(colours) - 2)
  }

  /** The points of the samples of class `l`, in order. */
  function PointsOf(samples: seq<Sample>, classOf: Bgr -> Landmark, l: Landmark): (pts: seq<Vec3>)
    ensures |pts| <= |samples|
  {
    if |samples| == 0 then []
    else
      var last := samples[|samples| - 1];
      PointsOf(samples[..|samples| - 1], classOf, l) + (if classOf(last.colour) == l then [last.point] else [])
  }

  /** The three output vectors `points_B`, `points_G`, `points_R`. */
  datatype Lists = Lists(blue: seq<Vec3>, green: seq<Vec3>, red: seq<Vec3>)

  /** `push_back` of a point onto the vector of landmark `l`; an unclassified point is dropped. */
  function File(ls: Lists, p: Vec3, l: Landmark): Lists {
    match l
    case Green => ls.(green := ls.green + [p])
    case Blue => ls.(blue := ls.blue + [p])
    case Red => ls.(red := ls.red + [p])
    case Unclassified => ls
  }

  /** Filing every sample in turn, by the class of its colour. */
  function FileAll(ls: Lists, samples: seq<Sample>, classOf: Bgr -> Landmark): Lists {
    if |samples| == 0 then ls
    else
      var last := samples[|samples| - 1];
      File(FileAll(ls, samples[..|samples| - 1], classOf), last.point, classOf(last.colour))
  }

  /** The scene's bounding box. */
  datatype Box = Box(minX: real, maxX: real, minY: real, maxY: real, minZ: real, maxZ: real)

  function Widen(b: Box, p: Vec3): Box {
    Box(RMin(b.minX, p.x), RMax(b.maxX, p.x), RMin(b.minY, p.y), RMax(b.maxY, p.y), RMin(b.minZ, p.z), RMax(b.maxZ, p.z))
  }

  function WidenAll(b: Box, samples: seq<Sample>): Box {
    if |samples| == 0 then b else Widen(WidenAll(b, samples[..|samples| - 1]), samples[|samples| - 1].point)
  }

  predicate Contains(b: Box, p: Vec3) {
    b.minX <= p.x <= b.maxX && b.minY <= p.y <= b.maxY && b.minZ <= p.z <= b.maxZ
  }

  /** `outer` contains `inner`. */
  predicate Encloses(outer: Box, inner: Box) {
    outer.minX <= inner.minX && inner.maxX <= outer.maxX
    && outer.minY <= inner.minY && inner.maxY <= outer.maxY
    && outer.minZ <= inner.minZ && inner.maxZ <= outer.maxZ
  }

  // ---------------------------------------------------------------------
  // Properties of the classification and of the bounding box

  /** Every sample lands in exactly one of the four classes. */
  lemma {:induction false} PointsPartition(samples: seq<Sample>, classOf: Bgr -> Landmark)
    ensures |PointsOf(samples, classOf, Green)| + |PointsOf(samples, classOf, Blue)|
            + |PointsOf(samples, classOf, Red)| + |PointsOf(samples, classOf, Unclassified)| == |samples|
  {
    if |samples| > 0 {
      PointsPartition(samples[..|samples| - 1], classOf);
    }
  }

  /** A listed point is a sample point whose colour is of class `l`. */
  lemma {:induction false} PointsOfAreClassified(samples: seq<Sample>, classOf: Bgr -> Landmark, l: Landmark, k: int)
    requires 0 <= k < |PointsOf(samples, classOf, l)|
    ensures exists i :: 0 <= i < |samples| && samples[i].point == PointsOf(samples, classOf, l)[k]
                        && classOf(samples[i].colour) == l
  {
    var prefix := samples[..|samples| - 1];
    var last := samples[|samples| - 1];
    if k < |PointsOf(prefix, classOf, l)| {
      PointsOfAreClassified(prefix, classOf, l, k);
      var i :| 0 <= i < |prefix| && prefix[i].point == PointsOf(prefix, classOf, l)[k]
               && classOf(prefix[i].colour) == l;
      assert samples[i] == prefix[i];
    } else {
      assert samples[|samples| - 1] == last;
    }
  }

  /** Every sample is listed under its class. */
  lemma {:induction false} ClassifiedAreListed(samples: seq<Sample>, classOf: Bgr -> Landmark, i: int)
    requires 0 <= i < |samples|
    ensures samples[i].point in PointsOf(samples, classOf, classOf(samples[i].colour))
  {
    var prefix := samples[..|samples| - 1];
    if i < |prefix| {
      ClassifiedAreListed(prefix, classOf, i);
      assert samples[i] == prefix[i];
    }
  }

  /** Classifying a concatenation lists the classified points of each part in turn. */
  lemma {:induction false} PointsOfAppend(xs: seq<Sample>, ys: seq<Sample>, classOf: Bgr -> Landmark, l: Landmark)
    ensures PointsOf(xs + ys, classOf, l) == PointsOf(xs, classOf, l) + PointsOf(ys, classOf, l)
    decreases |ys|
  {
    if |ys| > 0 {
      var ys' := ys[..|ys| - 1];
      PointsOfAppend(xs, ys', classOf, l);
      assert (xs + ys)[..|xs + ys| - 1] == xs + ys';
    } else {
      assert xs + ys == xs;
    }
  }

  /** Filing a concatenation files each part in turn. */
  lemma {:induction false} FileAllAppend(ls: Lists, xs: seq<Sample>, ys: seq<Sample>, classOf: Bgr -> Landmark)
    ensures FileAll(ls, xs + ys, classOf) == FileAll(FileAll(ls, xs, classOf), ys, classOf)
    decreases |ys|
  {
    if |ys| > 0 {
      var ys' := ys[..|ys| - 1];
      FileAllAppend(ls, xs, ys', classOf);
      assert (xs + ys)[..|xs + ys| - 1] == xs + ys';
    } else {
      assert xs + ys == xs;
    }
  }

  /**
   * Filing appends to each vector exactly the points of its class, in
   * sample order, and leaves nothing else in it.
   */
  lemma {:induction false} FileAllIsPointsOf(ls: Lists, samples: seq<Sample>, classOf: Bgr -> Landmark)
    ensures FileAll(ls, samples, classOf)
            == Lists(ls.blue + PointsOf(samples, classOf, Blue),
                     ls.green + PointsOf(samples, classOf, Green),
                     ls.red + PointsOf(samples, classOf, Red))
  {
    if |samples| == 0 {
      assert ls.blue + [] == ls.blue && ls.green + [] == ls.green && ls.red + [] == ls.red;
    } else {
      var prefix := samples[..|samples| - 1];
      FileAllIsPointsOf(ls, prefix, classOf);
      var last := samples[|samples| - 1];
      var qb, qg, qr := PointsOf(prefix, classOf, Blue), PointsOf(prefix, classOf, Green), PointsOf(prefix, classOf, Red);
      var ab := if classOf(last.colour) == Blue then [last.point] else [];
      var ag := if classOf(last.colour) == Green then [last.point] else [];
      var ar := if classOf(last.colour) == Red then [last.point] else [];
      assert ls.blue + qb + ab == ls.blue + (qb + ab);
      assert ls.green + qg + ag == ls.green + (qg + ag);
      assert ls.red + qr + ar == ls.red + (qr + ar);
    }
  }

  /** The widened box holds the original box and every sample point. */
  lemma {:induction false} WidenAllContains(b: Box, samples: seq<Sample>)
    ensures Encloses(WidenAll(b, samples), b)
    ensures forall i :: 0 <= i < |samples| ==> Contains(WidenAll(b, samples), samples[i].point)
  {
    if |samples| > 0 {
      var prefix := samples[..|samples| - 1];
      WidenAllContains(b, prefix);
      forall i | 0 <= i < |samples|
        ensures Contains(WidenAll(b, samples), samples[i].point)
      {
        if i < |prefix| {
          assert samples[i] == prefix[i];
        }
      }
    }
  }

  /**
   * The widened box is the smallest such box: each bound is the original
   * bound or a coordinate of a sample.
   */
  lemma {:induction false} WidenAllTight(b: Box, samples: seq<Sample>)
    ensures var w := WidenAll(b, samples);
            (w.maxX == b.maxX || exists i :: 0 <= i < |samples| && w.maxX == samples[i].point.x)
            && (w.minX == b.minX || exists i :: 0 <= i < |samples| && w.minX == samples[i].point.x)
            && (w.maxY == b.maxY || exists i :: 0 <= i < |samples| && w.maxY == samples[i].point.y)
            && (w.minY == b.minY || exists i :: 0 <= i < |samples| && w.minY == samples[i].point.y)
            && (w.maxZ == b.maxZ || exists i :: 0 <= i < |samples| && w.maxZ == samples[i].point.z)
            && (w.minZ == b.minZ || exists i :: 0 <= i < |samples| && w.minZ == samples[i].point.z)
  {
    if |samples| > 0 {
      var prefix := samples[..|samples| - 1];
      WidenAllTight(b, prefix);
      forall i | 0 <= i < |prefix|
        ensures samples[i] == prefix[i]
      {
      }
    }
  }

  /** Widening over a concatenation widens over each part in turn. */
  lemma {:induction false} WidenAllAppend(b: Box, xs: seq<Sample>, ys: seq<Sample>)
    ensures WidenAll(b, xs + ys) == WidenAll(WidenAll(b, xs), ys)
    decreases |ys|
  {
    if |ys| > 0 {
      var ys' := ys[..|ys| - 1];
      WidenAllAppend(b, xs, ys');
      assert (xs + ys)[..|xs + ys| - 1] == xs + ys';
    } else {
      assert xs + ys == xs;
    }
  }

  // ---------------------------------------------------------------------
  // The scene state and the pass over the cloud

  /** The bounding-box members of the scanner, which `density_probability` widens. */
  class Scene {
    var minX: real
    var maxX: real
    var minY: real
    var maxY: real
    var minZ: real
    var maxZ: real

    function Bounds(): Box
      reads this
    {
      Box(minX, maxX, minY, maxY, minZ, maxZ)
    }

    /** The members start at +-9999, an empty box. */
    constructor ()
      ensures Bounds() == Box(9999.0, -9999.0, 9999.0, -9999.0, 9999.0, -9999.0)
    {
      minX, maxX := 9999.0, -9999.0;
      minY, maxY := 9999.0, -9999.0;
      minZ, maxZ := 9999.0, -9999.0;
    }

    /** The bound updates for one valid point: six independent comparisons. */
    method Include(p: Vec3)
      modifies this
      ensures Bounds() == Widen(old(Bounds()), p)
    {
      if p.x > maxX { maxX := p.x; }
      if p.x < minX { minX := p.x; }
      if p.y > maxY { maxY := p.y; }
      if p.y < minY { minY := p.y; }
      if p.z > maxZ { maxZ := p.z; }
      if p.z < minZ { minZ := p.z; }
    }

    /**
     * The pass over the interior cells (rows and columns 2..n-3): each
     * valid point widens the box and is appended to the vector of its
     * landmark; the vectors then hold exactly the valid points of each
     * class, in row-major order, after what they held before.
     */
    method DensityProbability(cloud: seq<seq<Vec3>>, colours: seq<seq<Bgr>>, density: (Gaussian, Bgr) -> real, lists: Lists)
      returns (out: Lists)
      requires Aligned(cloud, colours)
      modifies this
      ensures var samples := GridSamples(cloud, colours, |colours| - 2);
              out == FileAll(lists, samples, Classifier(density)) && Bounds() == WidenAll(old(Bounds()), samples)
      ensures var samples := GridSamples(cloud, colours, |colours| - 2);
              (FileAllIsPointsOf(lists, samples, Classifier(density));
               out.blue == lists.blue + PointsOf(samples, Classifier(density), Blue)
               && out.green == lists.green + PointsOf(samples, Classifier(density), Green)
               && out.red == lists.red + PointsOf(samples, Classifier(density), Red))
    {
      out := lists;
      ghost var samples: seq<Sample> := [];
      var row := 2;
      while row < |colours| - 2
        invariant 2 <= row <= Max(2, |colours| - 2)
        invariant samples == GridSamples(cloud, colours, row)
        invariant out == FileAll(lists, samples, Classifier(density))
        invariant Bounds() == WidenAll(old(Bounds()), samples)
      {
        ghost var rowSamples := RowSamples(cloud, colours, row, Width(colours) - 2);
        out := ScanRow(cloud, colours, density, row, out);
        FileAllAppend(lists, samples, rowSamples, Classifier(density));
        WidenAllAppend(old(Bounds()), samples, rowSamples);
        samples := samples + rowSamples;
        row := row + 1;
      }
      FileAllIsPointsOf(lists, samples, Classifier(density));
    }

    /** The inner loop over the columns 2..cols-3 of one row. */
    method ScanRow(cloud: seq<seq<Vec3>>, colours: seq<seq<Bgr>>, density: (Gaussian, Bgr) -> real, row: int, lists: Lists)
      returns (out: Lists)
      requires Aligned(cloud, colours) && 0 <= row < |colours|
      modifies this
      ensures var samples := RowSamples(cloud, colours, row, Width(colours) - 2);
              out == FileAll(lists, samples, Classifier(density)) && Bounds() == WidenAll(old(Bounds()), samples)
    {
      out := lists;
      var col := 2;
      while col < |colours[row]| - 2
        invariant 2 <= col <= Max(2, Width(colours) - 2)
        invariant out == FileAll(lists, RowSamples(cloud, colours, row, col), Classifier(density))
        invariant Bounds() == WidenAll(old(Bounds()), RowSamples(cloud, colours, row, col))
      {
        ghost var done := RowSamples(cloud, colours, row, col);
        ghost var added := CellSamples(cloud, colours, row, col);
        out := ScanCell(cloud, colours, density, row, col, out);
        FileAllAppend(lists, done, added, Classifier(density));
        WidenAllAppend(old(Bounds()), done, added);
        col := col + 1;
        assert RowSamples(cloud, colours, row, col) == done + added;
      }
      assert |colours[row]| == Width(colours);
      if col != Width(colours) - 2 {
        assert RowSamples(cloud, colours, row, Width(colours) - 2) == [];
      }
    }

    /** The body of the inner loop for cell (row, col). */
    method ScanCell(cloud: seq<seq<Vec3>>, colours: seq<seq<Bgr>>, density: (Gaussian, Bgr) -> real, row: int, col: int,
                    lists: Lists)
      returns (out: Lists)
      requires Aligned(cloud, colours) && 0 <= row < |colours| && 0 <= col < Width(colours)
      modifies this
      ensures var added := CellSamples(cloud, colours, row, col);
              out == FileAll(lists, added, Classifier(density)) && Bounds() == WidenAll(old(Bounds()), added)
    {
      out := lists;
      var crt := cloud[row][col];
      var crtColour := colours[row][col];
      if crt.z > 0.0 {
        Include(crt);
        var resG, resB, resR := density(GreenModel, crtColour), density(BlueModel, crtColour), density(RedModel, crtColour);
        out := Assign(resG, resB, resR, crt, out);
        ghost var added := CellSamples(cloud, colours, row, col);
        assert added[..0] == [];
      }
    }

    /**
     * The arm of the pass that files one valid point: the first of G, B, R
     * equal to their maximum names the vector, when the maximum exceeds the
     * threshold.
     */
    static method Assign(resG: real, resB: real, resR: real, crt: Vec3, lists: Lists) returns (out: Lists)
      ensures out == File(lists, crt, ClassifyDensities(resG, resB, resR))
    {
      out := lists;
      var res := RMax(resG, RMax(resB, resR));
      if res > DensityThreshold {
        if res == resG {
          out := out.(green := out.green + [crt]);
        } else if res == resB {
          out := out.(blue := out.blue + [crt]);
        } else if res == resR {
          out := out.(red := out.red + [crt]);
        }
      }
    }
  }
}
