/**
 * Per-column peak detection of the projected line in the grey difference
 * image (the first half of `ComputePointCloud`).
 *
 * For every column the source keeps a running sum that it seeds with rows
 * 0..2 and then slides over the rows of the band [top, bottom): at row i it
 * subtracts row i-2 and adds row i+1. A row becomes the column's peak when
 * its truncated average beats the running maximum `sat_max` (an
 * `unsigned char`, seeded with the seed sum itself) and exceeds 78.
 * Columns in the right-hand sixth of the image also record the reference
 * row used to find the projector row.
 */
module ScanLine {
  import opened Images

  /** Minimal 3-row average intensity of a line pixel. */
  const PeakThreshold: int := 78

  /** A camera pixel, `cv::Point2i(x = column, y = row)`. */
  datatype Pixel = Pixel(x: int, y: int)

  /** `point_max` before any row was accepted. */
  const NoPeak: Pixel := Pixel(0, 0)

  /** The per-column loop state: `sat_max` and `point_max`. */
  datatype ColumnState = ColumnState(satMax: Byte, pointMax: Pixel)

  /**
   * What the column loop reads stays inside the grey image `g` (rows
   * |g|, columns `cols`): rows 0..2 for the seed and rows i-2..i+1 for every
   * row i of the band.
   */
  ghost predicate Readable(g: seq<seq<Byte>>, cols: nat, top: int, bottom: int) {
    IsGrid(g, |g|, cols) && |g| >= 3 && (top < bottom ==> 2 <= top && bottom < |g|)
  }

  function Seed(g: seq<seq<Byte>>, cols: nat, top: int, bottom: int, j: int): int
    requires Readable(g, cols, top, bottom) && 0 <= j < cols
  {
    g[0][j] as int + g[1][j] + g[2][j]
  }

  /** The value of `sum` after row i (i == top - 1: the seed). */
  function RunningSum(g: seq<seq<Byte>>, cols: nat, top: int, bottom: int, j: int, i: int): int
    requires Readable(g, cols, top, bottom) && 0 <= j < cols && top - 1 <= i < bottom
    decreases i - top
  {
    if i < top then Seed(g, cols, top, bottom, j)
    else RunningSum(g, cols, top, bottom, j, i - 1) - g[i - 2][j] as int + g[i + 1][j] as int
  }

  /** `average = sum / 3` at row i, with C's truncating division. */
  function Average(g: seq<seq<Byte>>, cols: nat, top: int, bottom: int, j: int, i: int): int
    requires Readable(g, cols, top, bottom) && 0 <= j < cols && top <= i < bottom
  {
    TruncDiv(RunningSum(g, cols, top, bottom, j, i), 3)
  }

  /** The true sum of the three rows centred on row i. */
  function Window(g: seq<seq<Byte>>, cols: nat, j: int, i: int): int
    requires IsGrid(g, |g|, cols) && 0 <= j < cols && 1 <= i < |g| - 1
  {
    g[i - 1][j] as int + g[i][j] + g[i + 1][j]
  }

  /** The column loop state once rows top..k-1 have been processed. */
  function ScanColumn(g: seq<seq<Byte>>, cols: nat, top: int, bottom: int, j: int, k: int): ColumnState
    requires Readable(g, cols, top, bottom) && 0 <= j < cols && top <= k <= Max(top, bottom)
    decreases k - top
  {
    if k == top then ColumnState(ToByte(Seed(g, cols, top, bottom, j)), NoPeak)
    else
      var s := ScanColumn(g, cols, top, bottom, j, k - 1);
      var average := Average(g, cols, top, bottom, j, k - 1);
      if average > s.satMax && average > PeakThreshold then ColumnState(ToByte(average), Pixel(j, k - 1))
      else s
  }

  /** The final `point_max` of column j. */
  function ColumnPeak(g: seq<seq<Byte>>, cols: nat, top: int, bottom: int, j: int): Pixel
    requires Readable(g, cols, top, bottom) && 0 <= j < cols
  {
    ScanColumn(g, cols, top, bottom, j, Max(top, bottom)).pointMax
  }

  /** Columns right of `cols - cols/6` may set the reference row. */
  predicate InReferenceBand(j: int, cols: nat) {
    j > cols - cols / 6
  }

  /** `cam_points` after columns 0..n-1: one pixel per column that has a peak. */
  function CamPoints(g: seq<seq<Byte>>, cols: nat, top: int, bottom: int, n: nat): seq<Pixel>
    requires Readable(g, cols, top, bottom) && n <= cols
  {
    if n == 0 then []
    else
      var p := ColumnPeak(g, cols, top, bottom, n - 1);
      CamPoints(g, cols, top, bottom, n - 1) + (if p != NoPeak then [p] else [])
  }

  /** `current_row` after columns 0..n-1 (0 when none was recorded). */
  function ReferenceRow(g: seq<seq<Byte>>, cols: nat, top: int, bottom: int, n: nat): int
    requires Readable(g, cols, top, bottom) && n <= cols
  {
    if n == 0 then 0
    else
      var p := ColumnPeak(g, cols, top, bottom, n - 1);
      if InReferenceBand(n - 1, cols) && p != NoPeak then p.y else ReferenceRow(g, cols, top, bottom, n - 1)
  }

  // ---------------------------------------------------------------------
  // What a column's peak is

  /**
   * Invariant of the column loop: the peak, if any, is a row of the band
   * already processed whose average exceeds the threshold, and `sat_max`
   * holds that average as an `unsigned char`.
   */
  lemma {:induction false} ScanColumnShape(g: seq<seq<Byte>>, cols: nat, top: int, bottom: int, j: int, k: int)
    requires Readable(g, cols, top, bottom) && 0 <= j < cols && top <= k <= Max(top, bottom)
    ensures var s := ScanColumn(g, cols, top, bottom, j, k);
            s.pointMax == NoPeak ||
            (s.pointMax.x == j && top <= s.pointMax.y < k
             && Average(g, cols, top, bottom, j, s.pointMax.y) > PeakThreshold
             && s.satMax == ToByte(Average(g, cols, top, bottom, j, s.pointMax.y)))
    ensures ScanColumn(g, cols, top, bottom, j, k).pointMax == NoPeak ||
            ScanColumn(g, cols, top, bottom, j, k).pointMax.y >= 2
    decreases k - top
  {
    if k > top {
      ScanColumnShape(g, cols, top, bottom, j, k - 1);
    }
  }

  /** A detected peak lies in the band, in its own column, above the threshold. */
  lemma ColumnPeakInBand(g: seq<seq<Byte>>, cols: nat, top: int, bottom: int, j: int)
    requires Readable(g, cols, top, bottom) && 0 <= j < cols
    ensures var p := ColumnPeak(g, cols, top, bottom, j);
            p != NoPeak ==>
              p.x == j && top <= p.y < bottom && Average(g, cols, top, bottom, j, p.y) > PeakThreshold
  {
    ScanColumnShape(g, cols, top, bottom, j, Max(top, bottom));
  }

  /**
   * The running sum is the true 3-row window sum shifted by a constant: the
   * seed (rows 0..2) minus the window that ends just above the band.
   */
  lemma {:induction false} RunningSumIsShiftedWindow(g: seq<seq<Byte>>, cols: nat, top: int, bottom: int, j: int, i: int)
    requires Readable(g, cols, top, bottom) && 0 <= j < cols && top <= i < bottom
    ensures RunningSum(g, cols, top, bottom, j, i)
         == Window(g, cols, j, i) + (Seed(g, cols, top, bottom, j) - Window(g, cols, j, top - 1))
    decreases i - top
  {
    if i > top {
      RunningSumIsShiftedWindow(g, cols, top, bottom, j, i - 1);
    }
  }

  /**
   * No average of the column exceeds 255, so every store of an average into
   * the `unsigned char` `sat_max` is defined. A negative average (a bright
   * row above a band that starts below row 2) is never stored, because it
   * fails `average > sat_max`.
   */
  ghost predicate NoWrap(g: seq<seq<Byte>>, cols: nat, top: int, bottom: int, j: int)
    requires Readable(g, cols, top, bottom) && 0 <= j < cols
  {
    forall i :: top <= i < bottom ==> Average(g, cols, top, bottom, j, i) < 256
  }

  /**
   * With the band starting at row 2, the seed and the sliding window agree:
   * the running sum is exactly the 3-row window, so the averages fit a byte.
   */
  lemma BandFromRowTwoIsWindow(g: seq<seq<Byte>>, cols: nat, bottom: int, j: int)
    requires Readable(g, cols, 2, bottom) && 0 <= j < cols
    ensures forall i :: 2 <= i < bottom ==> RunningSum(g, cols, 2, bottom, j, i) == Window(g, cols, j, i)
    ensures NoWrap(g, cols, 2, bottom, j)
  {
    forall i | 2 <= i < bottom
      ensures RunningSum(g, cols, 2, bottom, j, i) == Window(g, cols, j, i)
      ensures 0 <= Average(g, cols, 2, bottom, j, i) < 256
    {
      RunningSumIsShiftedWindow(g, cols, 2, bottom, j, i);
    }
  }

  /** Row p is the first row of the band with the largest average. */
  ghost predicate IsFirstMax(g: seq<seq<Byte>>, cols: nat, top: int, bottom: int, j: int, k: int, p: int)
    requires Readable(g, cols, top, bottom) && 0 <= j < cols && k <= bottom
  {
    top <= p < k
    && (forall i :: top <= i < k ==> Average(g, cols, top, bottom, j, i) <= Average(g, cols, top, bottom, j, p))
    && (forall i :: top <= i < p ==> Average(g, cols, top, bottom, j, i) < Average(g, cols, top, bottom, j, p))
  }

  lemma {:induction false} ScanColumnIsFirstMax(g: seq<seq<Byte>>, cols: nat, top: int, bottom: int, j: int, k: int)
    requires Readable(g, cols, top, bottom) && 0 <= j < cols && top <= k <= bottom
    requires NoWrap(g, cols, top, bottom, j)
    ensures var s := ScanColumn(g, cols, top, bottom, j, k);
            var t0 := ToByte(Seed(g, cols, top, bottom, j));
            (s.pointMax == NoPeak ==>
               s.satMax == t0 &&
               forall i :: top <= i < k ==> Average(g, cols, top, bottom, j, i) <= Max(PeakThreshold, t0))
            && (s.pointMax != NoPeak ==>
               s.pointMax == Pixel(j, s.pointMax.y)
               && IsFirstMax(g, cols, top, bottom, j, k, s.pointMax.y)
               && s.satMax == Average(g, cols, top, bottom, j, s.pointMax.y)
               && Average(g, cols, top, bottom, j, s.pointMax.y) > Max(PeakThreshold, t0))
    decreases k - top
  {
    if k > top {
      ScanColumnIsFirstMax(g, cols, top, bottom, j, k - 1);
      ScanColumnShape(g, cols, top, bottom, j, k);
      var s := ScanColumn(g, cols, top, bottom, j, k - 1);
      var a := Average(g, cols, top, bottom, j, k - 1);
      assert a < 256;
    }
  }

  /**
   * When no average exceeds 255, a column has a peak exactly when some band
   * row's average exceeds both 78 and the seed byte, and the peak is then
   * the first row with the largest average.
   */
  lemma ColumnPeakIsFirstMax(g: seq<seq<Byte>>, cols: nat, top: int, bottom: int, j: int)
    requires Readable(g, cols, top, bottom) && 0 <= j < cols && top <= bottom
    requires NoWrap(g, cols, top, bottom, j)
    ensures var p := ColumnPeak(g, cols, top, bottom, j);
            var t0 := ToByte(Seed(g, cols, top, bottom, j));
            (p == NoPeak <==>
               forall i :: top <= i < bottom ==> Average(g, cols, top, bottom, j, i) <= Max(PeakThreshold, t0))
            && (p != NoPeak ==>
               p.x == j && IsFirstMax(g, cols, top, bottom, j, bottom, p.y)
               && Average(g, cols, top, bottom, j, p.y) > Max(PeakThreshold, t0))
  {
    ScanColumnIsFirstMax(g, cols, top, bottom, j, bottom);
  }

  /** Over a black image the running sum stays 0. */
  lemma {:induction false} BlackSumIsZero(g: seq<seq<Byte>>, cols: nat, top: int, bottom: int, j: int, i: int)
    requires Readable(g, cols, top, bottom) && 0 <= j < cols && top - 1 <= i < bottom && Black(g, cols)
    ensures RunningSum(g, cols, top, bottom, j, i) == 0
    decreases i - top
  {
    if i >= top {
      BlackSumIsZero(g, cols, top, bottom, j, i - 1);
    }
  }

  /** No column of a black image has a peak. */
  lemma BlackColumnHasNoPeak(g: seq<seq<Byte>>, cols: nat, top: int, bottom: int, j: int)
    requires Readable(g, cols, top, bottom) && 0 <= j < cols && Black(g, cols)
    ensures ColumnPeak(g, cols, top, bottom, j) == NoPeak
  {
    if top <= bottom {
      forall i | top <= i < bottom
        ensures Average(g, cols, top, bottom, j, i) == 0
      {
        BlackSumIsZero(g, cols, top, bottom, j, i);
      }
      ColumnPeakIsFirstMax(g, cols, top, bottom, j);
    }
  }

  // ---------------------------------------------------------------------
  // What the pixels found over all columns are

  /** Pixel p is the peak of one of the columns 0..n-1. */
  ghost predicate IsListedPeak(g: seq<seq<Byte>>, cols: nat, top: int, bottom: int, n: nat, p: Pixel)
    requires Readable(g, cols, top, bottom) && n <= cols
  {
    0 <= p.x < n && p != NoPeak
    && p == ColumnPeak(g, cols, top, bottom, p.x)
    && top <= p.y < bottom
    && Average(g, cols, top, bottom, p.x, p.y) > PeakThreshold
  }

  /**
   * `cam_points` lists, in increasing column order, exactly the columns that
   * have a peak, one pixel per such column.
   */
  lemma {:induction false} CamPointsAreColumnPeaks(g: seq<seq<Byte>>, cols: nat, top: int, bottom: int, n: nat)
    requires Readable(g, cols, top, bottom) && n <= cols
    ensures forall a, b :: 0 <= a < b < |CamPoints(g, cols, top, bottom, n)| ==>
              CamPoints(g, cols, top, bottom, n)[a].x < CamPoints(g, cols, top, bottom, n)[b].x
    ensures forall a :: 0 <= a < |CamPoints(g, cols, top, bottom, n)| ==>
              IsListedPeak(g, cols, top, bottom, n, CamPoints(g, cols, top, bottom, n)[a])
    ensures forall c :: 0 <= c < n && ColumnPeak(g, cols, top, bottom, c) != NoPeak ==>
              ColumnPeak(g, cols, top, bottom, c) in CamPoints(g, cols, top, bottom, n)
  {
    if n > 0 {
      CamPointsAreColumnPeaks(g, cols, top, bottom, n - 1);
      ColumnPeakInBand(g, cols, top, bottom, n - 1);
      var prev := CamPoints(g, cols, top, bottom, n - 1);
      var p := ColumnPeak(g, cols, top, bottom, n - 1);
      var pts := CamPoints(g, cols, top, bottom, n);
      assert pts == prev + (if p != NoPeak then [p] else []);
      forall a | 0 <= a < |pts|
        ensures IsListedPeak(g, cols, top, bottom, n, pts[a])
      {
        if a < |prev| {
          assert pts[a] == prev[a];
          assert IsListedPeak(g, cols, top, bottom, n - 1, prev[a]);
        } else {
          assert pts[a] == p;
        }
      }
    }
  }

  /**
   * `current_row` is 0 exactly when no column of the reference band has a
   * peak; otherwise it is the peak row of the right-most such column.
   */
  lemma {:induction false} ReferenceRowZeroIff(g: seq<seq<Byte>>, cols: nat, top: int, bottom: int, n: nat)
    requires Readable(g, cols, top, bottom) && n <= cols
    ensures ReferenceRow(g, cols, top, bottom, n) == 0
            <==> forall c :: 0 <= c < n && InReferenceBand(c, cols) ==> ColumnPeak(g, cols, top, bottom, c) == NoPeak
  {
    if n > 0 {
      ReferenceRowZeroIff(g, cols, top, bottom, n - 1);
      ScanColumnShape(g, cols, top, bottom, n - 1, Max(top, bottom));
    }
  }

  /** A recorded reference row is the peak row of the rightmost band column that has a peak. */
  lemma {:induction false} ReferenceRowIsRightmostBandPeak(g: seq<seq<Byte>>, cols: nat, top: int, bottom: int, n: nat)
    requires Readable(g, cols, top, bottom) && n <= cols
    ensures var r := ReferenceRow(g, cols, top, bottom, n);
            r != 0 ==>
              (top <= r < bottom
               && exists c :: 0 <= c < n && InReferenceBand(c, cols)
                    && ColumnPeak(g, cols, top, bottom, c) != NoPeak
                    && r == ColumnPeak(g, cols, top, bottom, c).y
                    && forall c' :: c < c' < n && InReferenceBand(c', cols) ==> ColumnPeak(g, cols, top, bottom, c') == NoPeak)
  {
    if n > 0 {
      var p := ColumnPeak(g, cols, top, bottom, n - 1);
      if InReferenceBand(n - 1, cols) && p != NoPeak {
        ColumnPeakInBand(g, cols, top, bottom, n - 1);
        var c := n - 1;
        assert InReferenceBand(c, cols) && ColumnPeak(g, cols, top, bottom, c) != NoPeak;
      } else {
        ReferenceRowIsRightmostBandPeak(g, cols, top, bottom, n - 1);
      }
    }
  }

  /** A black image has no detected pixel and no reference row. */
  lemma {:induction false} BlackImageHasNoLine(g: seq<seq<Byte>>, cols: nat, top: int, bottom: int, n: nat)
    requires Readable(g, cols, top, bottom) && n <= cols && Black(g, cols)
    ensures CamPoints(g, cols, top, bottom, n) == []
    ensures ReferenceRow(g, cols, top, bottom, n) == 0
  {
    if n > 0 {
      BlackImageHasNoLine(g, cols, top, bottom, n - 1);
      BlackColumnHasNoPeak(g, cols, top, bottom, n - 1);
    }
  }

  // ---------------------------------------------------------------------
  // The column loops

  /**
   * The nested column/row loops of `ComputePointCloud`: the detected pixels
   * (`cam_points`) and the reference row (`current_row`).
   */
  method ScanColumns(g: seq<seq<Byte>>, cols: nat, top: int, bottom: int) returns (camPoints: seq<Pixel>, currentRow: int)
    requires Readable(g, cols, top, bottom)
    ensures camPoints == CamPoints(g, cols, top, bottom, cols)
    ensures currentRow == ReferenceRow(g, cols, top, bottom, cols)
  {
    camPoints, currentRow := [], 0;
    var j := 0;
    while j < cols
      invariant 0 <= j <= cols
      invariant camPoints == CamPoints(g, cols, top, bottom, j)
      invariant currentRow == ReferenceRow(g, cols, top, bottom, j)
    {
      var sum: int := g[0][j] as int + g[1][j] + g[2][j];
      var satMax: Byte := ToByte(sum);
      var pointMax := NoPeak;
      var i := top;
      while i < bottom
        invariant top <= i <= Max(top, bottom)
        invariant top < bottom ==> sum == RunningSum(g, cols, top, bottom, j, i - 1)
        invariant ColumnState(satMax, pointMax) == ScanColumn(g, cols, top, bottom, j, i)
        invariant pointMax == NoPeak || pointMax.y >= 2
        invariant currentRow == if InReferenceBand(j, cols) && pointMax != NoPeak then pointMax.y
                                else ReferenceRow(g, cols, top, bottom, j)
      {
        ScanColumnShape(g, cols, top, bottom, j, i);
        sum := sum - g[i - 2][j] as int + g[i + 1][j] as int;
        var average := TruncDiv(sum, 3);
        if average > satMax && average > PeakThreshold {
          pointMax := Pixel(j, i);
          satMax := ToByte(average);
          if j > cols - cols / 6 {
            currentRow := i;
          }
        }
        i := i + 1;
      }
      if pointMax != NoPeak {
        camPoints := camPoints + [pointMax];
      }
      j := j + 1;
    }
  }
}
