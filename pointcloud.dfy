/**
 * `ComputePointCloud`: one captured frame of the scanning line becomes
 * 3D points. The difference between the frame and the reference frame is
 * turned grey, every column's peak pixel is found (module ScanLine), the
 * reference row in the right-hand sixth of the image gives the projector
 * row of the line, and each peak pixel is triangulated against the light
 * plane of that projector row. The point goes into the cloud grid at the
 * pixel and the de-noised colour of the difference image into the colour
 * grid.
 */
module PointCloud {
  import opened Geometry
  import opened Images
  import opened ScanLine

  /** Depth given to undistorted image points (`cv::Point3d(x, y, 500.0)`). */
  const ImageDepth: real := 500.0

  /**
   * The calibration the triangulator uses: `cv::undistortPoints` with the
   * camera and the projector intrinsics (as functions), and the
   * projector-to-camera rotation R and translation T.
   */
  datatype Calibration = Calibration(
    camUndistort: (real, real) -> (real, real),
    projUndistort: (real, real) -> (real, real),
    rot: Mat3,
    trans: Vec3)

  /** The camera ray of pixel `px`: direction and origin are both `u1`. */
  function CameraRay(calib: Calibration, px: Pixel): Vec3 {
    var (x, y) := calib.camUndistort(px.x as real, px.y as real);
    Vec3(x, y, ImageDepth)
  }

  /** `u2`: the undistorted right-hand end of projector row `row`, used as plane normal. */
  function ProjectorNormal(calib: Calibration, projWidth: int, row: int): Vec3 {
    var (x, y) := calib.projUndistort(projWidth as real, row as real);
    Vec3(x, y, ImageDepth)
  }

  /** `w2 = R^T (u2 - T)`: the point that fixes the projector plane. */
  function ProjectorPoint(calib: Calibration, projWidth: int, row: int): Vec3 {
    TransposeTimes(calib.rot, Sub(ProjectorNormal(calib, projWidth, row), calib.trans))
  }

  /** The 3D point of camera pixel `px` lit by projector row `row`. */
  function Triangulate(calib: Calibration, projWidth: int, row: int, px: Pixel): Option<Vec3> {
    var u1 := CameraRay(calib, px);
    RayPlaneIntersection(u1, u1, ProjectorNormal(calib, projWidth, row), ProjectorPoint(calib, projWidth, row))
  }

  /**
   * A triangulated point is on the line of sight of its pixel (a multiple
   * of `u1`, the ray through the camera centre) and on the projector plane;
   * it exists exactly when the plane normal is not orthogonal to the ray.
   */
  lemma TriangulatedPointOnBothRays(calib: Calibration, projWidth: int, row: int, px: Pixel)
    ensures var u1 := CameraRay(calib, px);
            var u2 := ProjectorNormal(calib, projWidth, row);
            var r := Triangulate(calib, projWidth, row, px);
            (r.Some? <==> Dot(u2, u1) != 0.0)
            && (r.Some? ==>
                  (exists s: real :: r.value == Scale(s, u1))
                  && Dot(u2, Sub(r.value, ProjectorPoint(calib, projWidth, row))) == 0.0)
  {
    var u1 := CameraRay(calib, px);
    var r := Triangulate(calib, projWidth, row, px);
    if r.Some? {
      var t: real :| r.value == Add(Scale(t, u1), u1);
      assert r.value == Scale(t + 1.0, u1);
    }
  }

  /**
   * The projector row of the line: the reference row's offset into the
   * camera band, scaled to the projector height, with C's integer division.
   */
  function MapRow(currentRow: int, top: int, bottom: int, projHeight: int): int
    requires top < bottom
  {
    TruncDiv((currentRow - top) * projHeight, bottom - top)
  }

  /**
   * For a reference row inside the band the projector row is in 0..H-1, so
   * the source's `row > H` test never fires and `row <= 0` rejects exactly
   * the rows of the first projector-row-sized slice of the band.
   */
  lemma MapRowRange(currentRow: int, top: int, bottom: int, projHeight: int)
    requires top <= currentRow < bottom && projHeight > 0
    ensures 0 <= MapRow(currentRow, top, bottom, projHeight) < projHeight
    ensures MapRow(currentRow, top, bottom, projHeight) == 0 <==> (currentRow - top) * projHeight < bottom - top
  {
    var n, d := currentRow - top, bottom - top;
    var a := n * projHeight;
    assert 0 <= a by {
      MulNonNegative(n, projHeight);
    }
    QuotientBelowFactor(n, d, projHeight);
  }

  lemma MulNonNegative(x: int, y: int)
    requires 0 <= x && 0 <= y
    ensures 0 <= x * y
  {
  }

  /** 0 <= n < d implies 0 <= (n * h) / d < h, and the quotient is 0 exactly when n * h < d. */
  lemma QuotientBelowFactor(n: int, d: int, h: int)
    requires 0 <= n < d && 0 < h
    ensures 0 <= (n * h) / d < h
    ensures (n * h) / d == 0 <==> n * h < d
  {
    var a := n * h;
    MulNonNegative(n, h);
    var q, r := a / d, a % d;
    assert a == d * q + r && 0 <= r < d;
    MulBelow(n, d, h);
    if q >= h {
      MulMonotone(d, q, h);
    }
  }

  lemma MulBelow(n: int, d: int, h: int)
    requires n < d && 0 < h
    ensures n * h <= d * h - h
  {
    assert d * h - h - n * h == (d - 1 - n) * h;
    MulNonNegative(d - 1 - n, h);
  }

  lemma MulMonotone(d: int, q: int, h: int)
    requires 0 < d && h <= q
    ensures d * h <= d * q
  {
    assert d * q - d * h == d * (q - h);
    MulNonNegative(d, q - h);
  }

  /** The reference and the current frame are valid `CV_8UC3` images. */
  predicate FramesValid(reference: Frame, current: Frame) {
    IsBgr8WithData(reference) && IsBgr8WithData(current)
  }

  /** Two frames of one size, as `cv::subtract` demands (it raises an exception otherwise). */
  predicate SameSize(reference: Frame, current: Frame) {
    Rows(reference) == Rows(current) && Cols(reference) == Cols(current)
  }

  /** Every `cv::Mat` is rectangular: all its rows have `Cols` pixels. */
  ghost predicate Rectangular(f: Frame) {
    IsGrid(f.pixels, Rows(f), Cols(f))
  }

  /**
   * The rows the column scan reads lie inside the frame: at least three rows
   * (the seed reads rows 0..2) and a camera band [top, bottom) with its
   * neighbour rows inside the frame.
   */
  ghost predicate InFrame(reference: Frame, top: int, bottom: int) {
    Rows(reference) >= 3 && (top < bottom ==> 2 <= top && bottom < Rows(reference))
  }

  /** Frames the scan can run on: rectangular, of one size, and covering the band. */
  ghost predicate Shaped(reference: Frame, current: Frame, top: int, bottom: int) {
    Rectangular(reference) && Rectangular(current) && SameSize(reference, current) && InFrame(reference, top, bottom)
  }

  /** The difference image `mat_BGR`. */
  function Difference(reference: Frame, current: Frame, top: int, bottom: int): (d: seq<seq<Bgr>>)
    requires Shaped(reference, current, top, bottom)
    ensures IsGrid(d, Rows(reference), Cols(reference))
  {
    DiffImage(current.pixels, reference.pixels, Rows(reference), Cols(reference))
  }

  /** The grey difference image `mat_gray`. */
  function Grey(reference: Frame, current: Frame, top: int, bottom: int): (g: seq<seq<Byte>>)
    requires Shaped(reference, current, top, bottom)
    ensures Readable(g, Cols(reference), top, bottom)
  {
    GrayImage(Difference(reference, current, top, bottom), Rows(reference), Cols(reference))
  }

  /**
   * The projector row of a grey image, or `None` when the source skips the
   * line: no reference row in the right-hand band, or a mapped row not in
   * 1..H.
   */
  function LineRow(g: seq<seq<Byte>>, cols: nat, top: int, bottom: int, projHeight: int): Option<int>
    requires Readable(g, cols, top, bottom)
  {
    var cr := ReferenceRow(g, cols, top, bottom, cols);
    if cr == 0 || top >= bottom then None
    else
      var row := MapRow(cr, top, bottom, projHeight);
      if row <= 0 || row > projHeight then None else Some(row)
  }

  /** The projector row of the frame pair. */
  ghost function ProjectorRow(reference: Frame, current: Frame, top: int, bottom: int, projHeight: int): Option<int>
    requires Shaped(reference, current, top, bottom)
  {
    LineRow(Grey(reference, current, top, bottom), Cols(reference), top, bottom, projHeight)
  }

  /**
   * For a positive projector height a line is kept exactly when some
   * column of the right-hand band has a peak and the right-most such peak
   * lies at least one projector-row slice below the top of the band; the
   * projector row is then below H.
   */
  lemma LineRowIff(g: seq<seq<Byte>>, cols: nat, top: int, bottom: int, projHeight: int)
    requires Readable(g, cols, top, bottom) && projHeight > 0
    ensures var cr := ReferenceRow(g, cols, top, bottom, cols);
            var r := LineRow(g, cols, top, bottom, projHeight);
            (r.Some? <==>
               (exists c :: 0 <= c < cols && InReferenceBand(c, cols) && ColumnPeak(g, cols, top, bottom, c) != NoPeak)
               && (cr - top) * projHeight >= bottom - top)
            && (r.Some? ==> 0 < r.value < projHeight)
  {
    ReferenceRowZeroIff(g, cols, top, bottom, cols);
    ReferenceRowIsRightmostBandPeak(g, cols, top, bottom, cols);
    var cr := ReferenceRow(g, cols, top, bottom, cols);
    if cr != 0 {
      MapRowRange(cr, top, bottom, projHeight);
    }
  }

  /**
   * A current frame nowhere brighter than the reference shows no line: no
   * pixel is detected and no projector row is found, so `ComputePointCloud`
   * returns `Skipped` and leaves both grids unchanged.
   */
  lemma NoBrighterFrameShowsNoLine(reference: Frame, current: Frame, top: int, bottom: int, projHeight: int)
    requires Shaped(reference, current, top, bottom)
    requires forall i, j :: 0 <= i < Rows(reference) && 0 <= j < Cols(reference) ==>
               NoBrighter(current.pixels[i][j], reference.pixels[i][j])
    ensures CamPoints(Grey(reference, current, top, bottom), Cols(reference), top, bottom, Cols(reference)) == []
    ensures ProjectorRow(reference, current, top, bottom, projHeight) == None
  {
    var rows, cols := Rows(reference), Cols(reference);
    NoBrighterFrameIsBlack(current.pixels, reference.pixels, rows, cols);
    BlackImageHasNoLine(Grey(reference, current, top, bottom), cols, top, bottom, cols);
  }

  /** In particular a frame identical to the reference shows no line. */
  lemma ReferenceFrameShowsNoLine(reference: Frame, top: int, bottom: int, projHeight: int)
    requires Shaped(reference, reference, top, bottom)
    ensures ProjectorRow(reference, reference, top, bottom, projHeight) == None
  {
    NoBrighterFrameShowsNoLine(reference, reference, top, bottom, projHeight);
  }

  /** The colour stored for a cloud pixel: the mean of the difference image over rows y-1..y+1. */
  function PixelColour(d: seq<seq<Bgr>>, px: Pixel): Bgr
    requires 1 <= px.y < |d| - 1 && 0 <= px.x
    requires |d[px.y - 1]| > px.x && |d[px.y]| > px.x && |d[px.y + 1]| > px.x
  {
    AverageColour(d[px.y - 1][px.x], d[px.y][px.x], d[px.y + 1][px.x])
  }

  /**
   * How `ComputePointCloud` ends: it returns `true` after storing the line
   * (`Stored`) or `false` without touching the grids (`Skipped`), or
   * `cv::subtract` raises an exception for frames of different sizes
   * (`SizeMismatch`), also before any grid is written.
   */
  datatype Outcome = Stored | Skipped | SizeMismatch

  /**
   * The whole of `ComputePointCloud`. Invalid frames and lines without a
   * valid projector row are skipped and frames of different sizes raise;
   * both grids are then untouched. Otherwise it writes, at every detected
   * pixel, the triangulated point (an unspecified value when the ray is
   * parallel to the plane) and the de-noised colour, and no other cell.
   */
  method ComputePointCloud(cloud: array2<Vec3>, colours: array2<Bgr>, reference: Frame, current: Frame,
                           calib: Calibration, top: int, bottom: int, projWidth: int, projHeight: int)
    returns (outcome: Outcome)
    requires Rectangular(reference) && Rectangular(current)
    requires FramesValid(reference, current) && SameSize(reference, current) ==>
               InFrame(reference, top, bottom)
               && cloud.Length0 == colours.Length0 == Rows(reference)
               && cloud.Length1 == colours.Length1 == Cols(reference)
    modifies cloud, colours
    ensures outcome == SizeMismatch <==> FramesValid(reference, current) && !SameSize(reference, current)
    ensures outcome == Stored <==>
              FramesValid(reference, current) && SameSize(reference, current)
              && ProjectorRow(reference, current, top, bottom, projHeight).Some?
    ensures outcome != Stored ==> unchanged(cloud) && unchanged(colours)
    ensures outcome == Stored ==>
              var cols := Cols(reference);
              var g := Grey(reference, current, top, bottom);
              var d := Difference(reference, current, top, bottom);
              var row := ProjectorRow(reference, current, top, bottom, projHeight).value;
              var pts := CamPoints(g, cols, top, bottom, cols);
              (CamPointsAreColumnPeaks(g, cols, top, bottom, cols);
               forall k :: 0 <= k < |pts| ==>
                 colours[pts[k].y, pts[k].x] == PixelColour(d, pts[k])
                 && (Triangulate(calib, projWidth, row, pts[k]).Some? ==>
                       cloud[pts[k].y, pts[k].x] == Triangulate(calib, projWidth, row, pts[k]).value))
              && (forall i, j :: 0 <= i < cloud.Length0 && 0 <= j < cloud.Length1 && Pixel(j, i) !in pts ==>
                    cloud[i, j] == old(cloud[i, j]) && colours[i, j] == old(colours[i, j]))
  {
    if !FramesValid(reference, current) {
      return Skipped;
    }
    if !SameSize(reference, current) {
      return SizeMismatch;
    }
    var camPoints, row := PrepareLine(reference, current, top, bottom, projHeight);
    if row.None? {
      return Skipped;
    }
    var d := Difference(reference, current, top, bottom);
    StoreCloud(cloud, colours, camPoints, d, calib, projWidth, row.value);
    return Stored;
  }

  /**
   * The part of `ComputePointCloud` between the frame checks and the
   * stores: the column scan and the projector row. A line that goes on to
   * the stores has its listed pixels inside the frame, one per column,
   * left to right.
   */
  method PrepareLine(reference: Frame, current: Frame, top: int, bottom: int, projHeight: int)
    returns (camPoints: seq<Pixel>, row: Option<int>)
    requires Shaped(reference, current, top, bottom)
    ensures row == ProjectorRow(reference, current, top, bottom, projHeight)
    ensures row.Some? ==>
              camPoints == CamPoints(Grey(reference, current, top, bottom), Cols(reference), top, bottom, Cols(reference))
              && (forall m :: 0 <= m < |camPoints| ==>
                    1 <= camPoints[m].y < Rows(reference) - 1 && 0 <= camPoints[m].x < Cols(reference))
              && (forall a, b :: 0 <= a < b < |camPoints| ==> camPoints[a].x < camPoints[b].x)
  {
    var rows, cols := Rows(reference), Cols(reference);
    var g := Grey(reference, current, top, bottom);
    camPoints, row := ScanLineRow(g, cols, top, bottom, projHeight);
    if row.Some? {
      CamPointsAreColumnPeaks(g, cols, top, bottom, cols);
      forall m | 0 <= m < |camPoints|
        ensures 1 <= camPoints[m].y < rows - 1 && 0 <= camPoints[m].x < cols
      {
        assert IsListedPeak(g, cols, top, bottom, cols, camPoints[m]);
      }
    }
  }

  method ScanLineRow(g: seq<seq<Byte>>, cols: nat, top: int, bottom: int, projHeight: int)
    returns (camPoints: seq<Pixel>, row: Option<int>)
    requires Readable(g, cols, top, bottom)
    ensures camPoints == CamPoints(g, cols, top, bottom, cols)
    ensures row == LineRow(g, cols, top, bottom, projHeight)
    ensures row.Some? ==> top < bottom
  {
    var currentRow;
    camPoints, currentRow := ScanColumns(g, cols, top, bottom);
    if currentRow == 0 {
      return camPoints, None;
    }
    ReferenceRowIsRightmostBandPeak(g, cols, top, bottom, cols);
    var r := MapRow(currentRow, top, bottom, projHeight);
    if r <= 0 || r > projHeight {
      return camPoints, None;
    }
    row := Some(r);
  }

  /**
   * The loop over `cam_points`: each pixel's cell of the cloud receives its
   * triangulated point (an unspecified value when there is none) and its
   * cell of the colour grid the de-noised colour. The pixels lie in distinct
   * columns, so no write is overwritten.
   */
  method StoreCloud(cloud: array2<Vec3>, colours: array2<Bgr>, camPoints: seq<Pixel>, d: seq<seq<Bgr>>,
                    calib: Calibration, projWidth: int, row: int)
    requires IsGrid(d, cloud.Length0, cloud.Length1)
    requires colours.Length0 == cloud.Length0 && colours.Length1 == cloud.Length1
    requires forall m :: 0 <= m < |camPoints| ==> 1 <= camPoints[m].y < cloud.Length0 - 1 && 0 <= camPoints[m].x < cloud.Length1
    requires forall a, b :: 0 <= a < b < |camPoints| ==> camPoints[a].x < camPoints[b].x
    modifies cloud, colours
    ensures forall m :: 0 <= m < |camPoints| ==>
              colours[camPoints[m].y, camPoints[m].x] == PixelColour(d, camPoints[m])
              && (Triangulate(calib, projWidth, row, camPoints[m]).Some? ==>
                    cloud[camPoints[m].y, camPoints[m].x] == Triangulate(calib, projWidth, row, camPoints[m]).value)
    ensures forall i, j :: 0 <= i < cloud.Length0 && 0 <= j < cloud.Length1 && Pixel(j, i) !in camPoints ==>
              cloud[i, j] == old(cloud[i, j]) && colours[i, j] == old(colours[i, j])
  {
    var u2 := ProjectorNormal(calib, projWidth, row);
    var w2 := TransposeTimes(calib.rot, Sub(u2, calib.trans));
    var k := 0;
    while k < |camPoints|
      invariant 0 <= k <= |camPoints|
      invariant forall m :: 0 <= m < k ==>
                  colours[camPoints[m].y, camPoints[m].x] == PixelColour(d, camPoints[m])
                  && (Triangulate(calib, projWidth, row, camPoints[m]).Some? ==>
                        cloud[camPoints[m].y, camPoints[m].x] == Triangulate(calib, projWidth, row, camPoints[m]).value)
      invariant forall i, j :: 0 <= i < cloud.Length0 && 0 <= j < cloud.Length1 && Pixel(j, i) !in camPoints[..k] ==>
                  cloud[i, j] == old(cloud[i, j]) && colours[i, j] == old(colours[i, j])
    {
      var px := camPoints[k];
      var u1 := CameraRay(calib, px);
      var p := RayPlaneIntersection(u1, u1, u2, w2);
      match p {
        case Some(v) => cloud[px.y, px.x] := v;
        case None =>
          var arbitrary: Vec3 :| true;
          cloud[px.y, px.x] := arbitrary;
      }
      colours[px.y, px.x] := AverageColour(d[px.y - 1][px.x], d[px.y][px.x], d[px.y + 1][px.x]);
      assert camPoints[..k + 1] == camPoints[..k] + [px];
      k := k + 1;
    }
    assert camPoints[..k] == camPoints;
  }
}
