/** The hero scene's unit conversions: a point and a width given in pixels of
    a fixed 1920 x 1200 design frame become coordinates and a scale in the
    3D viewport (origin at the centre, y pointing up), and a rotation given
    in degrees becomes radians. */
module Scene {

  const DesignWidth: real := 1920.0
  const DesignHeight: real := 1200.0

  /** The script's circle constant, written as the decimal that denotes the
      same double. */
  const Pi: real := 3.141592653589793

  /** The size of the visible viewport in scene units. */
  datatype Viewport = Viewport(width: real, height: real)

  /** A position in the viewport's plane. */
  datatype Point = Point(x: real, y: real)

  /** A design-frame pixel as a viewport position: x is scaled and shifted so
      that the frame's left edge lands on the viewport's left edge; y is scaled,
      shifted and flipped because pixel rows grow downward and scene y grows
      upward. So the frame's edges land on the viewport's edges and its centre
      lines on the viewport's axes. */
  function PixelToThree(x: real, y: real, vp: Viewport): (p: Point)
    ensures x == 0.0 ==> p.x == -vp.width / 2.0
    ensures x == DesignWidth / 2.0 ==> p.x == 0.0
    ensures x == DesignWidth ==> p.x == vp.width / 2.0
    ensures y == 0.0 ==> p.y == vp.height / 2.0
    ensures y == DesignHeight / 2.0 ==> p.y == 0.0
    ensures y == DesignHeight ==> p.y == -vp.height / 2.0
  {
    Point((x / DesignWidth) * vp.width - vp.width / 2.0,
          -((y / DesignHeight) * vp.height - vp.height / 2.0))
  }

  /** A width in design pixels as a width in scene units: the fraction of
      the design frame's width it spans, times the viewport's width. */
  function CalculateScale(pixelWidth: real, vp: Viewport): (s: real)
    ensures pixelWidth == 0.0 ==> s == 0.0
    ensures pixelWidth == DesignWidth ==> s == vp.width
  {
    (pixelWidth / DesignWidth) * vp.width
  }

  /** Degrees to radians, as the scene computes a cube's start and end
      rotation: zero stays zero and the sign is kept. */
  function DegToRad(deg: real): (r: real)
    ensures deg == 0.0 ==> r == 0.0
    ensures deg > 0.0 ==> r > 0.0
    ensures deg < 0.0 ==> r < 0.0
  {
    (deg * Pi) / 180.0
  }

  /** The inverse of PixelToThree on a viewport of non-zero size: the design
      pixel that a viewport position comes from. */
  function ThreeToPixel(p: Point, vp: Viewport): (px: (real, real))
    requires vp.width != 0.0 && vp.height != 0.0
  {
    ((p.x + vp.width / 2.0) / vp.width * DesignWidth,
     (vp.height / 2.0 - p.y) / vp.height * DesignHeight)
  }

  /** The inverse of DegToRad. */
  function RadToDeg(r: real): real
  {
    r * 180.0 / Pi
  }

  /** The top-left design pixel is the viewport's top-left corner, the
      centre is the origin, and the bottom-right pixel is the bottom-right
      corner. */
  lemma Corners(vp: Viewport)
    ensures PixelToThree(0.0, 0.0, vp) == Point(-vp.width / 2.0, vp.height / 2.0)
    ensures PixelToThree(DesignWidth / 2.0, DesignHeight / 2.0, vp) == Point(0.0, 0.0)
    ensures PixelToThree(DesignWidth, DesignHeight, vp) == Point(vp.width / 2.0, -vp.height / 2.0)
  {
  }

  /** The x coordinate is the width the pixel column spans, less half the
      viewport: the two helpers agree. */
  lemma ColumnIsScaleLessHalf(x: real, y: real, vp: Viewport)
    ensures PixelToThree(x, y, vp).x == CalculateScale(x, vp) - vp.width / 2.0
  {
  }

  /** On a viewport of positive width, moving right in the design moves right
      in the scene. */
  lemma RightStaysRight(x1: real, x2: real, y: real, vp: Viewport)
    requires vp.width > 0.0 && x1 < x2
    ensures PixelToThree(x1, y, vp).x < PixelToThree(x2, y, vp).x
  {
    ScaleGrows(x1 / DesignWidth, x2 / DesignWidth, vp.width);
  }

  /** On a viewport of positive height, moving down in the design moves down
      in the scene: the y axis is flipped. */
  lemma DownGoesDown(x: real, y1: real, y2: real, vp: Viewport)
    requires vp.height > 0.0 && y1 < y2
    ensures PixelToThree(x, y1, vp).y > PixelToThree(x, y2, vp).y
  {
    ScaleGrows(y1 / DesignHeight, y2 / DesignHeight, vp.height);
  }

  lemma ScaleGrows(a: real, b: real, k: real)
    requires a < b && k > 0.0
    ensures a * k < b * k
  {
    assert b * k - a * k == (b - a) * k;
  }

  /** Every pixel of the design frame lands inside the viewport. */
  lemma FrameInsideViewport(x: real, y: real, vp: Viewport)
    requires 0.0 <= x <= DesignWidth && 0.0 <= y <= DesignHeight
    requires vp.width >= 0.0 && vp.height >= 0.0
    ensures -vp.width / 2.0 <= PixelToThree(x, y, vp).x <= vp.width / 2.0
    ensures -vp.height / 2.0 <= PixelToThree(x, y, vp).y <= vp.height / 2.0
  {
    ColumnInside(x, y, vp);
    RowInside(x, y, vp);
  }

  lemma ColumnInside(x: real, y: real, vp: Viewport)
    requires 0.0 <= x <= DesignWidth && vp.width >= 0.0
    ensures -vp.width / 2.0 <= PixelToThree(x, y, vp).x <= vp.width / 2.0
  {
    var f, w := x / DesignWidth, vp.width;
    FractionOf(f, w);
    var px := PixelToThree(x, y, vp).x;
    assert px == f * w - w / 2.0;
    assert f * w <= w;
  }

  lemma RowInside(x: real, y: real, vp: Viewport)
    requires 0.0 <= y <= DesignHeight && vp.height >= 0.0
    ensures -vp.height / 2.0 <= PixelToThree(x, y, vp).y <= vp.height / 2.0
  {
    var f, h := y / DesignHeight, vp.height;
    FractionOf(f, h);
    var py := PixelToThree(x, y, vp).y;
    assert py == h / 2.0 - f * h;
    assert f * h <= h;
  }

  lemma FractionOf(f: real, k: real)
    requires 0.0 <= f <= 1.0 && k >= 0.0
    ensures 0.0 <= f * k <= k
  {
    assert k - f * k == (1.0 - f) * k;
  }

  /** Pixels mirrored about the design frame's vertical centre line land
      mirrored about the viewport's y axis. */
  lemma MirrorAboutCentre(d: real, y: real, vp: Viewport)
    ensures PixelToThree(DesignWidth / 2.0 - d, y, vp).x == -PixelToThree(DesignWidth / 2.0 + d, y, vp).x
  {
    assert (DesignWidth / 2.0 - d) / DesignWidth == 0.5 - d / DesignWidth;
    assert (DesignWidth / 2.0 + d) / DesignWidth == 0.5 + d / DesignWidth;
  }

  /** The scale is additive in the pixel width: two widths side by side
      scale to the sum of their scales. */
  lemma ScaleAdditive(a: real, b: real, vp: Viewport)
    ensures CalculateScale(a + b, vp) == CalculateScale(a, vp) + CalculateScale(b, vp)
  {
    assert (a + b) / DesignWidth == a / DesignWidth + b / DesignWidth;
  }

  /** Converting to the viewport and back gives the same design pixel. */
  lemma PixelRoundTrip(x: real, y: real, vp: Viewport)
    requires vp.width != 0.0 && vp.height != 0.0
    ensures ThreeToPixel(PixelToThree(x, y, vp), vp) == (x, y)
  {
    var p := PixelToThree(x, y, vp);
    assert p.x + vp.width / 2.0 == (x / DesignWidth) * vp.width;
    assert (x / DesignWidth) * vp.width / vp.width == x / DesignWidth;
    assert vp.height / 2.0 - p.y == (y / DesignHeight) * vp.height;
    assert (y / DesignHeight) * vp.height / vp.height == y / DesignHeight;
  }

  /** A half turn is Pi radians, and converting back gives the degrees. */
  lemma HalfTurn()
    ensures DegToRad(180.0) == Pi
    ensures DegToRad(-180.0) == -Pi
  {
  }

  lemma DegreesRoundTrip(deg: real)
    ensures RadToDeg(DegToRad(deg)) == deg
  {
    assert (deg * Pi) / 180.0 * 180.0 == deg * Pi;
    assert deg * Pi / Pi == deg;
  }

  /** The first cube's end pose: 350 px left of and 200 px above the design
      centre, 180 px wide, turned 15 degrees. */
  lemma FirstCubeEnd(vp: Viewport)
    ensures PixelToThree(DesignWidth / 2.0 - 350.0, DesignHeight / 2.0 - 200.0, vp)
      == Point(-vp.width * 350.0 / 1920.0, vp.height * 200.0 / 1200.0)
    ensures CalculateScale(180.0, vp) == vp.width * 180.0 / 1920.0
    ensures DegToRad(15.0) == Pi / 12.0
  {
  }
}
