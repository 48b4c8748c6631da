/**
 * The viewer's image geometry: the fit-to-window zoom factor, the displayed
 * size for a zoom factor (with its snap back to full size), centring in the
 * client area and the stepped zoom clamps. A zoom factor is bitmap pixels
 * per screen pixel; it is a `real` here where the viewer uses a `double`.
 */
module Viewport {
  import opened Wrappers

  type Pixels = n: int | n > 0 witness 1

  /** The size of a decoded bitmap or of the client area: at least one pixel each way. */
  datatype Dims = Dims(width: Pixels, height: Pixels)

  datatype Point = Point(x: int, y: int)

  /** A control's size (`System.Drawing.Size`). */
  datatype Size = Size(width: int, height: int)

  function Full(bmp: Dims): Size {
    Size(bmp.width, bmp.height)
  }

  function Ratio(n: Pixels, m: Pixels): (r: real)
    ensures r > 0.0
  {
    n as real / m as real
  }

  /** The zoom factor at which the whole bitmap just fits: the larger of the two axis ratios. */
  function FitRatio(bmp: Dims, client: Dims): (r: real)
    ensures r >= Ratio(bmp.height, client.height) && r >= Ratio(bmp.width, client.width)
    ensures r == Ratio(bmp.height, client.height) || r == Ratio(bmp.width, client.width)
  {
    var zh := Ratio(bmp.height, client.height);
    var zw := Ratio(bmp.width, client.width);
    if zh > zw then zh else zw
  }

  /** The bitmap is taller or wider than the client area. */
  predicate Overflows(bmp: Dims, client: Dims) {
    bmp.height > client.height || bmp.width > client.width
  }

  lemma RatioAboveOne(n: Pixels, m: Pixels)
    ensures Ratio(n, m) > 1.0 <==> n > m
  {
    var r := Ratio(n, m);
    assert r * m as real == n as real;
  }

  /** The bitmap overflows exactly when its fit ratio exceeds one. */
  lemma OverflowsIffFitAboveOne(bmp: Dims, client: Dims)
    ensures Overflows(bmp, client) <==> FitRatio(bmp, client) > 1.0
  {
    RatioAboveOne(bmp.height, client.height);
    RatioAboveOne(bmp.width, client.width);
  }

  /** `(int)(n / zoom)`: the C# cast truncates, which for this positive quotient is the floor. */
  function Scaled(n: Pixels, zoom: real): (r: int)
    requires zoom > 0.0
    ensures 0 <= r
    ensures r as real <= n as real / zoom < r as real + 1.0
  {
    (n as real / zoom).Floor
  }

  lemma ScaledAtMost(n: Pixels, zoom: real)
    requires zoom >= 1.0
    ensures Scaled(n, zoom) <= n
  {
    var q := n as real / zoom;
    assert q * zoom == n as real;
    assert q <= n as real;
  }

  lemma ScaledAtOne(n: Pixels)
    ensures Scaled(n, 1.0) == n
  {
  }

  /**
   * The size the image box gets for a zoom factor: each side truncated to
   * bitmap size / zoom, unless either side falls outside [0, bitmap side],
   * in which case both snap to the full bitmap size.
   */
  function DisplaySize(bmp: Dims, zoom: real): (s: Size)
    requires zoom > 0.0
    ensures 0 <= s.width <= bmp.width && 0 <= s.height <= bmp.height
  {
    var h := Scaled(bmp.height, zoom);
    var w := Scaled(bmp.width, zoom);
    if h < 0 || h > bmp.height || w < 0 || w > bmp.width then Full(bmp) else Size(w, h)
  }

  /** At a zoom factor of one or more nothing snaps: each side is the truncated quotient. */
  lemma DisplaySizeScales(bmp: Dims, zoom: real)
    requires zoom >= 1.0
    ensures DisplaySize(bmp, zoom) == Size(Scaled(bmp.width, zoom), Scaled(bmp.height, zoom))
  {
    ScaledAtMost(bmp.width, zoom);
    ScaledAtMost(bmp.height, zoom);
  }

  /** Either the truncated quotients or, when one of them is out of range, the full size. */
  lemma DisplaySizeCases(bmp: Dims, zoom: real)
    requires zoom > 0.0
    ensures var s := DisplaySize(bmp, zoom);
            || (s == Size(Scaled(bmp.width, zoom), Scaled(bmp.height, zoom)))
            || (s == Full(bmp) && (Scaled(bmp.width, zoom) > bmp.width || Scaled(bmp.height, zoom) > bmp.height))
  {
  }

  /** C#'s `x / 2` on `int`: rounds toward zero. */
  function HalfTowardZero(x: int): (r: int)
    ensures x >= 0 ==> 0 <= x - 2 * r <= 1
    ensures x < 0 ==> -1 <= x - 2 * r <= 0
  {
    if x >= 0 then x / 2 else -((-x) / 2)
  }

  /** Location of an image box of `size` centred in the client area: `(client - size) / 2` per axis. */
  function Centre(client: Dims, size: Size): (p: Point)
    ensures var spare := client.width - size.width;
            spare >= 0 ==> 0 <= p.x <= spare - p.x <= p.x + 1
    ensures var spare := client.width - size.width;
            spare < 0 ==> spare - p.x <= p.x <= 0 && p.x <= spare - p.x + 1
    ensures var spare := client.height - size.height;
            spare >= 0 ==> 0 <= p.y <= spare - p.y <= p.y + 1
    ensures var spare := client.height - size.height;
            spare < 0 ==> spare - p.y <= p.y <= 0 && p.y <= spare - p.y + 1
  {
    Point(HalfTowardZero(client.width - size.width), HalfTowardZero(client.height - size.height))
  }

  /** What showing a bitmap computes: zoom factor, zoom step (absent when it fits) and display size. */
  datatype Fitted = Fitted(zoom: real, step: Option<real>, size: Size)

  /** Fit-to-window: the fit ratio and a tenth of it as step when the bitmap overflows, else full size at zoom 1. */
  function Fit(bmp: Dims, client: Dims): (f: Fitted)
    ensures f.zoom >= 1.0
    ensures !Overflows(bmp, client) ==> f == Fitted(1.0, None, Full(bmp))
    ensures Overflows(bmp, client) ==> f.zoom == FitRatio(bmp, client) && f.step == Some(f.zoom / 10.0)
  {
    OverflowsIffFitAboveOne(bmp, client);
    if Overflows(bmp, client) then
      var z := FitRatio(bmp, client);
      Fitted(z, Some(z / 10.0), Size(Scaled(bmp.width, z), Scaled(bmp.height, z)))
    else
      Fitted(1.0, None, Full(bmp))
  }

  lemma QuotientAtMost(n: Pixels, m: Pixels, zoom: real)
    requires zoom >= Ratio(n, m)
    ensures Scaled(n, zoom) <= m
  {
    var q := n as real / zoom;
    assert q * zoom == n as real;
    assert Ratio(n, m) * m as real == n as real;
    assert n as real <= zoom * m as real;
    assert q <= m as real;
  }

  /** A fitted image lies within the client area and within the bitmap, and is what DisplaySize gives for its zoom. */
  lemma FitWithinClient(bmp: Dims, client: Dims)
    ensures var f := Fit(bmp, client);
            && f.size.width <= client.width && f.size.height <= client.height
            && f.size == DisplaySize(bmp, f.zoom)
  {
    var f := Fit(bmp, client);
    DisplaySizeScales(bmp, f.zoom);
    if Overflows(bmp, client) {
      QuotientAtMost(bmp.width, client.width, f.zoom);
      QuotientAtMost(bmp.height, client.height, f.zoom);
    }
  }

  /** A stepped zoom in: one step closer to full resolution, never below a factor of 1. */
  function StepIn(zoom: real, step: real): (r: real)
    ensures r >= 1.0
    ensures r == zoom - step || r == 1.0
    ensures zoom - step >= 1.0 ==> r == zoom - step
  {
    var z := zoom - step;
    if z < 1.0 then 1.0 else z
  }

  /** A stepped zoom out: one step further, never beyond the fit ratio `fit`. */
  function StepOut(zoom: real, step: real, fit: real): (r: real)
    ensures r <= fit
    ensures r == zoom + step || r == fit
    ensures zoom + step <= fit ==> r == zoom + step
  {
    var z := zoom + step;
    if z > fit then fit else z
  }

  /** Away from the clamps, a step out undoes a step in (exactly so only for reals). */
  lemma StepOutUndoesStepIn(zoom: real, step: real, fit: real)
    requires zoom - step >= 1.0 && zoom <= fit
    ensures StepOut(StepIn(zoom, step), step, fit) == zoom
  {
  }
}
