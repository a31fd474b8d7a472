/**
 * 8-bit BGR frames and the per-pixel arithmetic the triangulator applies to
 * them: saturating subtraction (`cv::subtract`), grey conversion
 * (`cv::cvtColor(..., COLOR_BGR2GRAY)`), C integer division and the
 * conversions to `unsigned char`.
 */
module Images {

  /** An `unsigned char`. */
  type Byte = b: int | 0 <= b < 256

  /** One pixel of a `CV_8UC3` image, channels in OpenCV's B, G, R order. */
  datatype Bgr = Bgr(b: Byte, g: Byte, r: Byte)

  /** The element type of a `cv::Mat`; only `CV_8UC3` frames are accepted. */
  datatype PixelFormat = Bgr8 | OtherFormat

  /** A captured frame: its element type and its rows of pixels. */
  datatype Frame = Frame(format: PixelFormat, pixels: seq<seq<Bgr>>)

  ghost predicate IsGrid<T>(g: seq<seq<T>>, rows: nat, cols: nat) {
    |g| == rows && forall i :: 0 <= i < rows ==> |g[i]| == cols
  }

  function Rows(f: Frame): nat {
    |f.pixels|
  }

  function Cols(f: Frame): nat {
    if |f.pixels| == 0 then 0 else |f.pixels[0]|
  }

  /** `mat.data != NULL && mat.type() == CV_8UC3`: a non-empty 8-bit BGR frame. */
  predicate IsBgr8WithData(f: Frame) {
    f.format == Bgr8 && Rows(f) > 0 && Cols(f) > 0
  }

  function Max(a: int, b: int): int {
    if a < b then b else a
  }

  function Min(a: int, b: int): int {
    if a < b then a else b
  }

  /**
   * Saturating 8-bit subtraction, as `cv::subtract` does per channel: a
   * channel no brighter than the reference comes out black, a brighter one
   * keeps its excess over the reference, and the result is never brighter
   * than the current channel.
   */
  function SubtractSat(a: Byte, b: Byte): (d: Byte)
    ensures d == 0 <==> a <= b
    ensures d > 0 ==> b + d == a
    ensures d <= a
  {
    if a > b then a - b else 0
  }

  function SubtractPixel(cur: Bgr, ref: Bgr): Bgr {
    Bgr(SubtractSat(cur.b, ref.b), SubtractSat(cur.g, ref.g), SubtractSat(cur.r, ref.r))
  }

  /** The difference image `current - reference`, pixel by pixel. */
  function DiffImage(cur: seq<seq<Bgr>>, ref: seq<seq<Bgr>>, rows: nat, cols: nat): (d: seq<seq<Bgr>>)
    requires IsGrid(cur, rows, cols) && IsGrid(ref, rows, cols)
  {
    seq(rows, i requires 0 <= i < rows => seq(cols, j requires 0 <= j < cols => SubtractPixel(cur[i][j], ref[i][j])))
  }

  /**
   * BGR to grey with the BT.601 weights 0.114, 0.587, 0.299 in 14-bit fixed
   * point and rounding, as OpenCV computes it for 8-bit images.
   */
  function Gray(p: Bgr): (y: Byte)
    ensures Min(p.b, Min(p.g, p.r)) <= y <= Max(p.b, Max(p.g, p.r))
  {
    GrayBetween(p);
    (1868 * p.b + 9617 * p.g + 4899 * p.r + 8192) / 16384
  }

  lemma GrayBetween(p: Bgr)
    ensures var y := (1868 * p.b + 9617 * p.g + 4899 * p.r + 8192) / 16384;
            Min(p.b, Min(p.g, p.r)) <= y <= Max(p.b, Max(p.g, p.r))
  {
    var lo, hi := Min(p.b, Min(p.g, p.r)), Max(p.b, Max(p.g, p.r));
    var n := 1868 * p.b + 9617 * p.g + 4899 * p.r + 8192;
    assert 16384 * lo + 8192 <= n < 16384 * (hi + 1);
  }

  /** The grey image of a BGR image. */
  function GrayImage(d: seq<seq<Bgr>>, rows: nat, cols: nat): (g: seq<seq<Byte>>)
    requires IsGrid(d, rows, cols)
  {
    seq(rows, i requires 0 <= i < rows => seq(cols, j requires 0 <= j < cols => Gray(d[i][j])))
  }

  /** No channel of `cur` is brighter than the same channel of `ref`. */
  predicate NoBrighter(cur: Bgr, ref: Bgr) {
    cur.b <= ref.b && cur.g <= ref.g && cur.r <= ref.r
  }

  /**
   * A pixel of the grey difference image is lit only where the current frame
   * is brighter than the reference in some channel, and it is never brighter
   * than the brightest channel of the current frame. (The converse fails: a
   * difference of 1 in the blue channel alone rounds to grey 0.)
   */
  lemma GreyDifferencePixel(cur: seq<seq<Bgr>>, ref: seq<seq<Bgr>>, rows: nat, cols: nat, i: int, j: int)
    requires IsGrid(cur, rows, cols) && IsGrid(ref, rows, cols) && 0 <= i < rows && 0 <= j < cols
    ensures var g := GrayImage(DiffImage(cur, ref, rows, cols), rows, cols);
            IsGrid(g, rows, cols)
            && (g[i][j] > 0 ==> !NoBrighter(cur[i][j], ref[i][j]))
            && g[i][j] <= Max(cur[i][j].b, Max(cur[i][j].g, cur[i][j].r))
  {
    var d := DiffImage(cur, ref, rows, cols);
    assert d[i][j] == SubtractPixel(cur[i][j], ref[i][j]);
  }

  /** A grey image with every pixel black. */
  ghost predicate Black(g: seq<seq<Byte>>, cols: nat)
    requires IsGrid(g, |g|, cols)
  {
    forall i, j :: 0 <= i < |g| && 0 <= j < cols ==> g[i][j] == 0
  }

  /**
   * When the current frame is nowhere brighter than the reference (in
   * particular when it is the reference itself), the grey difference image
   * is black.
   */
  lemma NoBrighterFrameIsBlack(cur: seq<seq<Bgr>>, ref: seq<seq<Bgr>>, rows: nat, cols: nat)
    requires IsGrid(cur, rows, cols) && IsGrid(ref, rows, cols)
    requires forall i, j :: 0 <= i < rows && 0 <= j < cols ==> NoBrighter(cur[i][j], ref[i][j])
    ensures var g := GrayImage(DiffImage(cur, ref, rows, cols), rows, cols);
            IsGrid(g, rows, cols) && Black(g, cols)
  {
    var g := GrayImage(DiffImage(cur, ref, rows, cols), rows, cols);
    forall i, j | 0 <= i < rows && 0 <= j < cols
      ensures g[i][j] == 0
    {
      GreyDifferencePixel(cur, ref, rows, cols, i, j);
    }
  }

  /** C's `/` on `int`: the quotient is truncated toward zero. */
  function TruncDiv(a: int, d: int): (q: int)
    requires d > 0
    ensures a >= 0 ==> q == a / d
    ensures a < 0 ==> a <= d * q < a + d && q <= 0
  {
    if a >= 0 then a / d else -((-a) / d)
  }

  /**
   * Storing an integer into an `unsigned char` keeps it modulo 256 (for an
   * `int` the conversion is defined that way; for the `double` the source
   * stores, values beyond 255 are where the model chooses the same rule).
   */
  function ToByte(v: int): (b: Byte)
    ensures 0 <= v < 256 ==> b == v
    ensures (b - v) % 256 == 0
  {
    v % 256
  }

  /**
   * The mean of three channel samples, truncated, as stored in the colour
   * grid: `(unsigned char)((c0 + c1 + c2) / 3)`.
   */
  function Average3(c0: Byte, c1: Byte, c2: Byte): (a: Byte)
    ensures Min(c0, Min(c1, c2)) <= a <= Max(c0, Max(c1, c2))
    ensures 3 * a <= c0 + c1 + c2 < 3 * a + 3
  {
    (c0 + c1 + c2) / 3
  }

  /** The de-noised colour of a cloud point: the channel-wise mean of three rows. */
  function AverageColour(above: Bgr, at: Bgr, below: Bgr): Bgr {
    Bgr(Average3(above.b, at.b, below.b), Average3(above.g, at.g, below.g), Average3(above.r, at.r, below.r))
  }
}
