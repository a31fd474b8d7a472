# Anatomic augmented-reality projector: the reconstruction core

This structured-light scanner sweeps a coloured line from a projector across an anatomical
phantom while a camera records each frame. It triangulates the lit pixels into a 3D point
cloud. Then it finds three coloured landmarks in that cloud and intersects their planes to
get one registration point. This project models that pipeline in Dafny and proves
properties of the model. The source is `MainWindow` in `src/MainWindow.cpp`. The model is
split into eight modules:

- `Images`: 8-bit BGR frames and the per-pixel arithmetic the frame goes through. That
  covers saturating subtraction against the reference frame, OpenCV's fixed-point grey
  conversion, C's truncating integer division, and the stores into `unsigned char`.
- `ScanLine`: the per-column peak search from `ComputePointCloud`. It uses a 3-row sliding
  sum, the intensity threshold 78 and a running maximum, and it keeps the reference row
  found in the right-hand sixth of the image.
- `Geometry`: vectors, `approximate_ray_plane_intersection` and
  `three_planes_intersection` (Cramer's rule, with the 1e-20 parallel test).
- `PointCloud`: `ComputePointCloud`. It rejects bad frames and maps the reference row to a
  projector row. The cloud and colour grids are `array2`s written only at the peak pixels.
- `Classify`: `density_probability`. Each valid point goes to the colour whose Gaussian
  density is largest, when that density is above 1e-9. Ties go to green, then blue, then
  red. The object's `min_x`..`max_z` bounding box is widened over every valid point; it is
  the `Scene` class.
- `Histogram`: `compute_maximum`. It builds the bin histogram, 100 bins per unit, over the
  points whose x lies in the interval, and scales the index of the smoothed maximum back.
- `Ransac`: `ransac`. It draws three distinct points per iteration, counts inliers, and
  keeps the first sample with the most inliers among those that are admissible (enough
  inliers, and orthogonal to the given normals).
- `Refine`: what happens to the centres after the histogram modes:
  - the shrinking-radius refinement rounds of `on_detect_colors_clicked` (blue, red,
    green; 0.08 down to 0.03) and `on_analyze_clicked` (green with its extra x rule, then
    blue and red; 1.5 down to 0.05);
  - the circle selection that gathers the points within 0.008 of each centre and
    blackens every valid pixel.

Coordinates are mathematical reals, and distances are compared squared. Where the code
hits a division by zero or a NaN, the model gives the outcome the code gets. A NaN centre
is `Refine.Centre.Undefined`, and every comparison against it is false. A zero normal
rejects every point as an inlier.

When a refinement step finds no qualifying points, the code divides by a zero count. That
centre becomes NaN, and every later round that reads it selects nothing.
`Refine.DetectFromPoisoned` and `Refine.AnalyzeFromPoisoned` state the consequence.

## Model

| member | source | states |
|---|---|---|
| `Images.SubtractSat` | src/MainWindow.cpp:1167 | a channel no brighter than the reference comes out black (and only such a channel); a brighter one keeps its excess over the reference; no result is brighter than the current channel |
| `Images.Gray` | src/MainWindow.cpp:1175 | the grey value of a pixel lies between its smallest and largest channel |
| `Images.GrayBetween` | src/MainWindow.cpp:1175 | the same bound for OpenCV's fixed-point weights 1868/9617/4899 with rounding |
| `Images.GreyDifferencePixel` | src/MainWindow.cpp:1167-1175 | a pixel of the grey difference image is lit only where the current frame is brighter than the reference in some channel, and is never brighter than the current pixel's brightest channel |
| `Images.NoBrighterFrameIsBlack` | src/MainWindow.cpp:1167-1175 | a current frame nowhere brighter than the reference gives an all-black grey image of the frame's shape |
| `Images.TruncDiv` | src/MainWindow.cpp:1186 | C integer division: it agrees with floor division on non-negative sums; on a negative sum `a` the quotient `q` is truncated toward zero, `a <= 3q < a + 3` |
| `Images.ToByte` | src/MainWindow.cpp:1181 | storing an `int` into `unsigned char` keeps values 0..255 and is congruent modulo 256 otherwise |
| `Images.Average3` | src/MainWindow.cpp:1249-1254 | the stored channel mean lies between the three samples and is their truncated third |
| `ScanLine.ScanColumnShape` | src/MainWindow.cpp:1180-1196 | after any prefix of rows, the column's candidate is either none or a pixel of this column, in the scanned rows with row index at least 2, above 78, with `sat_max` its stored average |
| `ScanLine.ColumnPeakInBand` | src/MainWindow.cpp:1183-1197 | a reported peak lies in column j, in `[topLine, bottomLine)`, and its average exceeds 78 |
| `ScanLine.RunningSumIsShiftedWindow` | src/MainWindow.cpp:1180-1185 | the sliding sum equals the true 3-row window at that row plus a fixed offset from the rows-0..2 seed |
| `ScanLine.BandFromRowTwoIsWindow` | src/MainWindow.cpp:1180-1186 | with `topLine == 2` the offset vanishes, so the sum is exactly the window and no average wraps past 255 |
| `ScanLine.ScanColumnIsFirstMax` | src/MainWindow.cpp:1183-1196 | when no average of the band exceeds 255 (storing a larger average into `sat_max` at line 1190 is undefined): during the scan the candidate is the first row whose average is the largest, above both 78 and the seed's byte; with no candidate, no average exceeds either |
| `ScanLine.ColumnPeakIsFirstMax` | src/MainWindow.cpp:1178-1197 | when no average of the band exceeds 255 (storing a larger average into `sat_max` at line 1190 is undefined): a column has no peak exactly when no average exceeds `max(78, seed)`; otherwise the peak is the first row with the largest average |
| `ScanLine.CamPointsAreColumnPeaks` | src/MainWindow.cpp:1197-1201 | the pushed points have strictly increasing columns, each is its column's peak, and every column's peak is pushed |
| `ScanLine.BlackColumnHasNoPeak` | src/MainWindow.cpp:1178-1197 | whatever the band, a black column has no peak: the sliding sum stays 0, below the threshold 78 |
| `ScanLine.BlackImageHasNoLine` | src/MainWindow.cpp:1178-1201 | a black grey image yields no detected pixel and leaves the reference row at 0 |
| `ScanLine.ReferenceRowZeroIff` | src/MainWindow.cpp:1191-1194 | the reference row stays 0 exactly when no column in the band `j > cols - cols/6` has a peak |
| `ScanLine.ReferenceRowIsRightmostBandPeak` | src/MainWindow.cpp:1191-1194 | a non-zero reference row is in `[topLine, bottomLine)` and is the peak row of the rightmost band column that has a peak |
| `ScanLine.ScanColumns` | src/MainWindow.cpp:1178-1202 | the two nested loops compute exactly the peak list and the reference row |
| `Geometry.RayPlaneIntersection` | src/MainWindow.cpp:1122-1137 | a point is returned exactly when the ray is not parallel to the plane, and it lies both on the ray and on the plane |
| `Geometry.RayPointOnPlane` | src/MainWindow.cpp:1130-1134 | the source's `lambda * vc + qc` satisfies the plane equation |
| `Geometry.RayPlaneRecoversPoint` | src/MainWindow.cpp:1122-1137 | any ray point on the plane is the one the function returns (round trip from a known point) |
| `Geometry.ThreePlanesIntersection` | src/MainWindow.cpp:1562-1582 | a determinant within 1e-20 of zero gives the zero point; otherwise the result lies on all three planes |
| `Geometry.CramerSolves` | src/MainWindow.cpp:1576-1581 | the Cramer combination `(1/det)(a+b+c)` lies on the three planes |
| `Geometry.CramerIdentity` | src/MainWindow.cpp:1576-1581 | the cofactor combination of `n_i . v` rebuilds `det * v` |
| `Geometry.ThreePlanesUnique` | src/MainWindow.cpp:1562-1582 | for a non-degenerate determinant, any point on all three planes is the one returned |
| `Geometry.ThreePlanesZeroIff` | src/MainWindow.cpp:1571-1581 | the zero point comes back exactly when the planes are near-parallel or all three pass through the origin |
| `PointCloud.TriangulatedPointOnBothRays` | src/MainWindow.cpp:1216-1247 | a pixel is triangulated exactly when its camera ray meets the projector plane, and the point lies on that ray and on the plane of the projector row |
| `PointCloud.MapRowRange` | src/MainWindow.cpp:1209-1210 | for a reference row in the band, the projector row lies in `[0, height)` and is 0 exactly when `(row - top) * height < bottom - top` |
| `PointCloud.QuotientBelowFactor` | src/MainWindow.cpp:1209 | the integer mapping `(n * h) / d` stays in `[0, h)` and is 0 exactly when `n * h < d` |
| `PointCloud.Difference` | src/MainWindow.cpp:1167 | the difference of two frames of equal shape has that shape |
| `PointCloud.Grey` | src/MainWindow.cpp:1175 | the grey frame has every row the column scan reads |
| `PointCloud.NoBrighterFrameShowsNoLine` | src/MainWindow.cpp:1161-1207 | a current frame nowhere brighter than the reference has no detected pixel and no projector row, so `ComputePointCloud` skips it with both grids unchanged |
| `PointCloud.ReferenceFrameShowsNoLine` | src/MainWindow.cpp:1161-1207 | a current frame identical to the reference shows no line |
| `PointCloud.LineRowIff` | src/MainWindow.cpp:1204-1214 | a projector row is found exactly when some band column has a peak and the mapped row is positive; such a row lies in `(0, height)` |
| `PointCloud.ScanLineRow` | src/MainWindow.cpp:1178-1214 | the column scan and the row mapping give the peak list and the projector row (or none) |
| `PointCloud.PrepareLine` | src/MainWindow.cpp:1174-1214 | for rectangular frames of one size that cover the band: the projector row and, when there is one, the peak list, which lies inside the grid (rows 1 to rows-2) with increasing columns |
| `PointCloud.StoreCloud` | src/MainWindow.cpp:1228-1270 | every peak pixel gets its triangulated point (when the ray meets the plane) and its three-row mean colour; no other cell changes |
| `PointCloud.ComputePointCloud` | src/MainWindow.cpp:1139-1282 | `cv::subtract` raises exactly when both frames are valid but differ in size; `true` exactly when both frames are valid 8-bit BGR of one size and a projector row is found; `false` and the exception leave both grids unchanged; `true` writes point and colour at exactly the peak pixels |
| `Ransac.InlierCountAtLeast` | src/MainWindow.cpp:1335-1348 | any set of inlier indices is no larger than the inlier count |
| `Ransac.OnPlaneIsInlier` | src/MainWindow.cpp:1335-1348 | a point on the candidate plane is an inlier for a non-zero normal and a positive threshold |
| `Ransac.SampleAtLeastThreeInliers` | src/MainWindow.cpp:1316-1348 | a non-degenerate sample counts its own three points, so its inlier count is at least 3 |
| `Ransac.SelectBestIsFirstMaximum` | src/MainWindow.cpp:1311-1355 | the kept model has at least the inliers of every admissible trial; it is the first admissible trial with that count, or the zero model when no admissible trial has an inlier |
| `Ransac.SelectBestZeroIff` | src/MainWindow.cpp:1311-1359 | the result is the zero model exactly when no admissible trial has an inlier |
| `Ransac.SelectBestBounded` | src/MainWindow.cpp:1311-1355 | the best inlier count never exceeds the number of points |
| `Ransac.CountInliers` | src/MainWindow.cpp:1335-1348 | the inner loop counts exactly the points within `thres` of the plane |
| `Ransac.Ransac` | src/MainWindow.cpp:1284-1360 | fewer than 3 points gives the empty result; otherwise `iter` valid draws (or none when `iter < 0`) and the normal and point of the best of them |
| `Classify.ClassifyDensities` | src/MainWindow.cpp:1495-1541 | a point is left out exactly when no density exceeds 1e-9; otherwise it is green, blue or red exactly when that density is the largest, with ties going to green, then blue |
| `Classify.PointsPartition` | src/MainWindow.cpp:1495-1541 | the four classes (three colours and left out) together hold each valid sample exactly once |
| `Classify.PointsOfAreClassified` | src/MainWindow.cpp:1500-1536 | every point in a colour list comes from a sample of that colour |
| `Classify.ClassifiedAreListed` | src/MainWindow.cpp:1500-1536 | every sample is in the list of its own colour |
| `Classify.PointsOfAppend` | src/MainWindow.cpp:1454-1543 | classifying a concatenation is the concatenation of the classifications (scan order is kept) |
| `Classify.FileAllAppend` | src/MainWindow.cpp:1500-1536 | pushing two runs of samples equals pushing them one after the other |
| `Classify.FileAllIsPointsOf` | src/MainWindow.cpp:1500-1536 | pushing samples appends exactly their blue, green and red points to the three lists |
| `Classify.WidenAllContains` | src/MainWindow.cpp:1462-1485 | the widened box encloses the old box and every valid point |
| `Classify.WidenAllTight` | src/MainWindow.cpp:1462-1485 | each bound of the widened box is the old bound or some valid point's coordinate |
| `Classify.WidenAllAppend` | src/MainWindow.cpp:1462-1485 | widening over two runs equals widening over one and then the other |
| `Classify.Scene.constructor` | src/MainWindow.cpp:58-63 | the scene starts with the box 9999/-9999 on each axis |
| `Classify.Scene.Include` | src/MainWindow.cpp:1462-1485 | the box is widened to take one point |
| `Classify.Scene.ScanCell` | src/MainWindow.cpp:1458-1542 | one cell: a valid point widens the box and is pushed to its colour's list; an invalid one changes nothing |
| `Classify.Scene.ScanRow` | src/MainWindow.cpp:1456-1543 | one row, columns 2 to cols-3: the lists and the box are those of the row's valid samples |
| `Classify.Scene.DensityProbability` | src/MainWindow.cpp:1362-1560 | rows and columns 2 to n-3: each list gains exactly that colour's valid points in scan order, and the box is widened over every valid point |
| `Histogram.Size` | src/MainWindow.cpp:1605 | the bin count is `abs(max - min) + 1` truncated, and at least 1 |
| `Histogram.SumUpdate` | src/MainWindow.cpp:1621 | raising one bin by `d` raises the total by `d` |
| `Histogram.CountsStep` | src/MainWindow.cpp:1616-1624 | one more point raises its bin by one when its x lies in the interval, and changes nothing otherwise |
| `Histogram.CountsTotal` | src/MainWindow.cpp:1612-1624 | the raw histogram holds every point in the interval once: its total is their number |
| `Histogram.ModeWithinRange` | src/MainWindow.cpp:1639-1640 | an index of the histogram maps back into `[min, max]` |
| `Histogram.FillHistogram` | src/MainWindow.cpp:1609-1624 | the filled buffer is the bin count of the points in the interval, bin by bin |
| `Histogram.ComputeMaximum` | src/MainWindow.cpp:1584-1641 | an axis outside 0..2 gives 0; otherwise the result is `(index + min*100)/100` for the calculator's index of the histogram, and it lies in `[min, max]` when the index is a bin |
| `Refine.SelectedIff` | src/MainWindow.cpp:439-448 | a point is taken exactly when it is one of the colour's points and lies within `dist` of both other centres (detect rule) |
| `Refine.SelectedFromUndefined` | src/MainWindow.cpp:449 | with a NaN centre nothing is taken, and the new centre is NaN too |
| `Refine.SelectedMeanInBox` | src/MainWindow.cpp:436-476 | the new centre lies in any box that holds all the colour's points (or is NaN) |
| `Refine.MeanInBox` | src/MainWindow.cpp:449 | the mean of points in a box lies in that box |
| `Refine.DetectRoundPoisoned` | src/MainWindow.cpp:438-475 | a NaN green or red centre makes all three centres NaN after one detect round |
| `Refine.AnalyzeRoundPoisoned` | src/MainWindow.cpp:915-955 | a NaN blue or red centre makes all three centres NaN after one analyze round |
| `Refine.DetectFromPoisoned` | src/MainWindow.cpp:436-476 | that NaN persists to the end of the detect schedule |
| `Refine.AnalyzeFromPoisoned` | src/MainWindow.cpp:915-955 | that NaN persists to the end of the analyze schedule |
| `Refine.DetectFromInBox` | src/MainWindow.cpp:436-476 | after the detect schedule every defined centre lies in a box holding all landmark points |
| `Refine.AnalyzeFromInBox` | src/MainWindow.cpp:915-955 | after the analyze schedule every defined centre lies in a box holding all landmark points |
| `Refine.SelectedStep` | src/MainWindow.cpp:443-447 | one accepted point adds itself to the sum and one to the count; a rejected one changes neither |
| `Refine.RefineCentre` | src/MainWindow.cpp:438-449 | the loop over one colour's points gives the mean of the accepted points, NaN when there are none |
| `Refine.RefineDetect` | src/MainWindow.cpp:436-476 | the detect loop gives the rounds of the 0.08-to-0.03 schedule |
| `Refine.RefineAnalyze` | src/MainWindow.cpp:915-955 | the analyze loop gives the rounds of the 1.5-to-0.05 schedule |
| `Refine.WithinIff` | src/MainWindow.cpp:562-579 | a point is in a circle exactly when it is a valid cloud point within 0.008 of that centre |
| `Refine.WithinUndefined` | src/MainWindow.cpp:564-579 | a NaN centre gathers no point |
| `Refine.WithinAppend` | src/MainWindow.cpp:557-582 | gathering over two runs of cells is gathering over each in turn |
| `Refine.CirclesOverlap` | src/MainWindow.cpp:568-579 | the three tests are independent: a point near two centres goes into both circles |
| `Refine.WithinStep` | src/MainWindow.cpp:568-579 | one more cell adds itself when it is valid and near the centre |
| `Refine.VisitCell` | src/MainWindow.cpp:561-580 | one cell: each list gains the point exactly when it is valid and near that centre, and only this cell is blackened, only when the point is valid |
| `Refine.SelectRow` | src/MainWindow.cpp:559-581 | one row: each list gains the row's valid points near its centre, and exactly that row's valid cells are blackened |
| `Refine.SelectCircles` | src/MainWindow.cpp:1047-1071 | the three circles are the valid points within 0.008 of each centre in row-major order; exactly the valid cells turn black and the others keep their colour |

## Left out

- The Qt window, the camera and projector threads, the buttons and the settings slots are left out. So is all file I/O: `save_pointcloud*`, the `.txt` outputs and the `std::cout`/`qCritical` messages. None of them decides a result.
- The `imageTest` and `color_image` debug images that `ComputePointCloud` writes, and the `pt_BGR` visualisation in `density_probability`, are left out. Nothing reads them back.
- The `sum_*`, `nb_*` and `*_R` statistics of `density_probability` are left out. They are only printed.
- Floats are modelled as mathematical reals. The refinement schedules are the exact decimal ones: 5 rounds from 0.08 and 73 rounds from 1.5. For these constants single-precision arithmetic gives the same counts: the `float` counter ends at about 0.0299999956, below `0.03f`, and at about 0.0400008, below `0.05f`. Only the radii inside each round differ slightly from the decimals, and that difference is not modelled.
- `int` overflow in the row mapping and in the sliding sum is not modelled; the values are far too small to reach it.
- The second validity check after `cv::subtract` (lines 1167-1172) is left out. With two valid 8-bit BGR frames of one shape, OpenCV always returns one.
- `PointCloud.ComputePointCloud` requires rectangular frames, and for valid frames of one size also at least 3 rows, a band `[topLine, bottomLine)` with `2 <= topLine` and `bottomLine < rows` when it is not empty, and cloud and colour grids of the frame's size. The source reads outside the frame otherwise, which is undefined behaviour; the model promises nothing there. A size mismatch is modelled as the `SizeMismatch` outcome, not excluded.
- `Images.ToByte` is also used for the `double` store `sat_max = average` (line 1190). The C++ conversion is undefined there for averages above 255. The model keeps the value modulo 256, and `ScanLine.ScanColumnIsFirstMax` and `ScanLine.ColumnPeakIsFirstMax` hold only when no average of the band exceeds 255.
- `Ransac.Orthogonal` reads the unqualified `abs` at line 1349 as the floating-point `std::abs`, so the test is `|dot| < 0.001`. If overload resolution picked C's `int abs`, the dot product would be truncated and the test would accept `|dot| < 1`; that reading is not modelled.
- `Geometry.RayPlaneIntersection`: when the ray is parallel to the plane the source divides by zero; the model returns `None`, so `PointCloud.StoreCloud` writes an unconstrained point into that cell and says nothing about its value (the non-finite floats are not modelled).
- `cv::undistortPoints` and the calibration come in as a parameter (`PointCloud.Calibration`). The `Rt` and `T` arguments that `approximate_ray_plane_intersection` never reads are dropped.
- ITK's `GaussianMembershipFunction::Evaluate` is a parameter of `density_probability`, from colour model and pixel to a density. The three means and covariances are kept as constants.
- ITK's `DiscreteGaussianImageFilter` followed by `MinimumMaximumImageCalculator` is one parameter of `compute_maximum`, from histogram and variance to an index.
- `Histogram.ComputeMaximum` requires every counted point to fall into a bin. The source writes out of range otherwise, which is undefined behaviour.
- The default values of `compute_maximum`'s interval and of `ransac`'s two normals, used by the shorter calls, come from a declaration that is not part of this model. `Histogram.ComputeMaximum` and `Ransac.Ransac` take them as explicit arguments.
- `rand()`/`srand()` in `ransac` are modelled as a nondeterministic choice of three distinct indices per iteration, recorded in a ghost log of trials.
- The initial centres come from the chains of `compute_maximum` calls (lines 372-431 and 852-911). They are inputs to `Refine.RefineDetect` and `Refine.RefineAnalyze`; the chains themselves are not modelled.
- The `good_*` M1 selection (lines 481-509) and the calls to `ransac` and `three_planes_intersection` that follow are not modelled as a pipeline. The operations they call are.
- `Refine.SelectCircles` models the loop of `on_analyze_clicked`. The loop in `on_detect_colors_clicked` (lines 557-582) is the same code, so `Refine.SelectRow` and `Refine.VisitCell` cite it.
- `Classify.Scene.DensityProbability` reads the cloud and the colours as value snapshots (`seq<seq<...>>`). The source receives `cv::Mat` headers by value and never writes its input through them.
- `sqrt` is not modelled: `sqrt(d) < r` is stated as `0 < r && d < r * r`, and the inlier test squares both sides.
