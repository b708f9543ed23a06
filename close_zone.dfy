/** The close zone: the magnetic "close" bubble that waits at the bottom of
    the screen while the floating bubble is dragged (FloatingCloseBubbleView.kt).

    Everything its `init` block computes is an immutable `CloseLayout` value;
    the window position it later overwrites lives in the `CloseBubbleView`
    class. Screen metrics come in as an immutable `ScreenInfo` value instead
    of the global `ScreenInfo` object. */
module CloseZone {
  import opened Wrappers

  /** Screen metrics in pixels, as the platform reports them (never negative). */
  datatype ScreenInfo = ScreenInfo(widthPx: nat, heightPx: nat, statusBarHeightPx: nat, softNavBarHeightPx: nat)

  /** `android.util.Size`: a width and a height in pixels. */
  datatype Size = Size(width: int, height: int)

  datatype Point = Point(x: int, y: int)

  /** A bitmap shown by an overlay: the library's default close icon, the
      bitmap decoded from a drawable resource, or one the host supplied. */
  datatype Image = DefaultCloseIcon | Decoded(drawable: int) | Bitmap(handle: nat)

  /** `DEFAULT_PADDING_BOTTOM_PX`: gap between the close bubble and the bottom insets. */
  const DefaultPaddingBottomPx: int := 30

  /** `Size.notZero()`: both dimensions are set. */
  predicate NotZero(s: Size) {
    s.width != 0 && s.height != 0
  }

  /** Kotlin's `a / 2` on an `Int`, which truncates toward zero (Dafny's `/` is Euclidean). */
  function Half(a: int): (h: int)
    ensures a >= 0 ==> 0 <= 2 * h <= a < 2 * h + 2
    ensures a < 0 ==> 2 * h - 2 < a <= 2 * h <= 0
  {
    if a >= 0 then a / 2 else -((-a) / 2)
  }

  /** Kotlin's `Float.toInt()` on a finite value: truncation toward zero. */
  function Trunc(v: real): (t: int)
    ensures v >= 0.0 ==> t as real <= v < t as real + 1.0
    ensures v < 0.0 ==> t as real - 1.0 < v <= t as real
  {
    if v >= 0.0 then v.Floor else -((-v).Floor)
  }

  /** The fields `init` computes once (FloatingCloseBubbleView.kt:27-49).
      `limitFlyHeight` is both `LIMIT_FLY_HEIGHT` and `limit_catch`, the
      capture radius; `screenHeightPx` is the `ScreenInfo.heightPx` the pull
      reads, fixed at construction. */
  datatype CloseLayout = CloseLayout(
    width: int, height: int,
    limitFlyHeight: nat,
    halfScreenWidth: nat, halfWidthPx: int, halfHeightPx: int,
    baseX: int, baseY: int,
    screenHeightPx: nat)

  /** The close bubble's layout, from the screen, the configured close-bubble
      size and the bubble size it falls back to. */
  function MakeCloseLayout(screen: ScreenInfo, closeBubbleSizePx: Size, bubbleSizePx: Size): (l: CloseLayout)
    // the close-bubble size falls back to the bubble size when it is not set
    ensures NotZero(closeBubbleSizePx) ==> l.width == closeBubbleSizePx.width && l.height == closeBubbleSizePx.height
    ensures !NotZero(closeBubbleSizePx) ==> l.width == bubbleSizePx.width && l.height == bubbleSizePx.height
    // the capture radius is the screen height over 15, rounded down
    ensures 15 * l.limitFlyHeight <= screen.heightPx < 15 * l.limitFlyHeight + 15
    // horizontally centred on the screen, up to one pixel of rounding
    ensures l.width >= 0 ==> -1 <= screen.widthPx - (2 * l.baseX + l.width) <= 1
    // its bottom edge sits 30px above the navigation bar, measured below the status bar
    ensures l.baseY + l.height + DefaultPaddingBottomPx + screen.softNavBarHeightPx + screen.statusBarHeightPx == screen.heightPx
    // the halves it keeps, as Kotlin's Int division computes them, and so the exact left edge
    ensures l.halfScreenWidth == screen.widthPx / 2
    ensures l.halfWidthPx == Half(l.width) && l.halfHeightPx == Half(l.height)
    ensures l.baseX == screen.widthPx / 2 - Half(l.width)
    ensures l.screenHeightPx == screen.heightPx
  {
    var w := if NotZero(closeBubbleSizePx) then closeBubbleSizePx.width else bubbleSizePx.width;
    var h := if NotZero(closeBubbleSizePx) then closeBubbleSizePx.height else bubbleSizePx.height;
    var halfScreenWidth := screen.widthPx / 2;
    var halfWidthPx := Half(w);
    CloseLayout(
      w, h,
      screen.heightPx / 15,
      halfScreenWidth, halfWidthPx, Half(h),
      halfScreenWidth - halfWidthPx,
      screen.heightPx - h - screen.softNavBarHeightPx - screen.statusBarHeightPx - DefaultPaddingBottomPx,
      screen.heightPx)
  }

  // ---------------------------------------------------------------------------
  // Capture: `distanceRatioToCloseBubble(x, y) == 0`

  /** Squared Euclidean distance from (x, y) to the close bubble's baseline position. */
  function SqDistance(l: CloseLayout, x: int, y: int): nat {
    (x - l.baseX) * (x - l.baseX) + (y - l.baseY) * (y - l.baseY)
  }

  /** `d` is the Euclidean distance from (x, y) to (baseX, baseY), as the
      distance helper the view calls reports it. */
  predicate IsDistance(l: CloseLayout, x: int, y: int, d: real) {
    d >= 0.0 && d * d == SqDistance(l, x, y) as real
  }

  /** The point lies within the capture radius, boundary included. */
  predicate Captured(l: CloseLayout, x: int, y: int) {
    l.limitFlyHeight > 0 && SqDistance(l, x, y) <= l.limitFlyHeight * l.limitFlyHeight
  }

  /** A floating-point result: a number, or NaN (the result of 0.0 / 0.0). */
  datatype Ratio = Num(value: real) | NaN

  /** `distanceRatioToCloseBubble` (FloatingCloseBubbleView.kt:95-108) over exact
      reals. With `d == 0` the quotient `limit / d` is +infinity when the limit
      is positive (so the ratio is 0) and NaN when it is 0 (NaN > 1 is false and
      1 - NaN is NaN). */
  function DistanceRatio(l: CloseLayout, x: int, y: int, d: real): (r: Ratio)
    requires IsDistance(l, x, y, d)
    ensures r.Num? ==> 0.0 <= r.value <= 1.0
  {
    if d == 0.0 then
      (if l.limitFlyHeight > 0 then Num(0.0) else NaN)
    else
      var q := l.limitFlyHeight as real / d;
      if q > 1.0 then Num(0.0) else Num(1.0 - q)
  }

  lemma MulLe(a: real, b: real, c: real)
    requires 0.0 <= c && a <= b
    ensures a * c <= b * c
  {
    assert (b - a) * c >= 0.0;
  }

  lemma MulLt(a: real, b: real, c: real)
    requires 0.0 < c && a < b
    ensures a * c < b * c
  {
    assert (b - a) * c > 0.0;
  }

  lemma SquaresLe(a: real, b: real)
    requires 0.0 <= a <= b
    ensures a * a <= b * b
  {
    MulLe(a, b, a);
    MulLe(a, b, b);
    assert a * b == b * a;
  }

  lemma SquaresLt(a: real, b: real)
    requires 0.0 <= a < b
    ensures a * a < b * b
  {
    MulLt(0.0, b - a, b + a);
    assert (b - a) * (b + a) == b * b - a * a;
  }

  /** For non-negative reals, ordering agrees with ordering of squares. */
  lemma SquaresOrdered(a: real, b: real)
    requires 0.0 <= a && 0.0 <= b
    ensures a <= b <==> a * a <= b * b
  {
    if a <= b { SquaresLe(a, b); } else { SquaresLt(b, a); }
  }

  /** A non-negative offset scaled by a ratio: non-negative, and no larger for a ratio up to 1. */
  lemma ScaledOffset(u: real, v: real)
    ensures 0.0 <= u && 0.0 <= v ==> 0.0 <= u * v
    ensures 0.0 <= u && 0.0 <= v <= 1.0 ==> u * v <= u
  {
    if 0.0 <= u && 0.0 <= v {
      MulLe(0.0, u, v);
      if v <= 1.0 {
        MulLe(v, 1.0, u);
      }
    }
  }

  /** For d > 0: limit / d >= 1 iff limit >= d. */
  lemma QuotientAtLeastOne(lim: real, d: real)
    requires 0.0 < d
    ensures lim / d >= 1.0 <==> lim >= d
  {
    var q := lim / d;
    assert q * d == lim;
    if q >= 1.0 {
      MulLe(1.0, q, d);
    } else {
      MulLt(q, 1.0, d);
    }
  }

  /** The ratio is exactly 0 iff the point is within the capture radius,
      including the point itself (d == 0) and the exact boundary (d == limit). */
  lemma RatioZeroIffCaptured(l: CloseLayout, x: int, y: int, d: real)
    requires IsDistance(l, x, y, d)
    ensures DistanceRatio(l, x, y, d) == Num(0.0) <==> Captured(l, x, y)
  {
    var lim := l.limitFlyHeight as real;
    assert (l.limitFlyHeight * l.limitFlyHeight) as real == lim * lim;
    if d != 0.0 {
      QuotientAtLeastOne(lim, d);
      SquaresOrdered(d, lim);
    }
  }

  /** Outside the capture radius the ratio lies strictly between 0 and 1. */
  lemma RatioOutsideIsBetweenZeroAndOne(l: CloseLayout, x: int, y: int, d: real)
    requires IsDistance(l, x, y, d)
    requires l.limitFlyHeight > 0 && !Captured(l, x, y)
    ensures DistanceRatio(l, x, y, d).Num?
    ensures 0.0 < DistanceRatio(l, x, y, d).value < 1.0
  {
    var lim := l.limitFlyHeight as real;
    assert (l.limitFlyHeight * l.limitFlyHeight) as real == lim * lim;
    SquaresOrdered(d, lim);
    QuotientAtLeastOne(lim, d);
    var q := lim / d;
    assert q * d == lim;
    assert 0.0 < q by {
      if q <= 0.0 { MulLe(q, 0.0, d); }
    }
  }

  // ---------------------------------------------------------------------------
  // Repositioning the close bubble

  /** `stickToBubble` (FloatingCloseBubbleView.kt:139-148): the close bubble's
      centre is put on the bubble's centre. For a layout whose halves are
      those `init` computes (as `MakeCloseLayout`'s are), the two centres,
      doubled to stay in integers, differ by at most one pixel of rounding,
      and by none when both sizes are even. */
  function StickPoint(l: CloseLayout, bubbleSizePx: Size, x: int, y: int): (p: Point)
    ensures l.halfWidthPx == Half(l.width) && l.width >= 0 && bubbleSizePx.width >= 0 ==>
      -1 <= (2 * p.x + l.width) - (2 * x + bubbleSizePx.width) <= 1
    ensures l.halfHeightPx == Half(l.height) && l.height >= 0 && bubbleSizePx.height >= 0 ==>
      -1 <= (2 * p.y + l.height) - (2 * y + bubbleSizePx.height) <= 1
    ensures l.halfWidthPx == Half(l.width) && l.width % 2 == 0 && bubbleSizePx.width % 2 == 0 ==>
      2 * p.x + l.width == 2 * x + bubbleSizePx.width
    ensures l.halfHeightPx == Half(l.height) && l.height % 2 == 0 && bubbleSizePx.height % 2 == 0 ==>
      2 * p.y + l.height == 2 * y + bubbleSizePx.height
  {
    Point(x + Half(bubbleSizePx.width) - l.halfWidthPx, y + Half(bubbleSizePx.height) - l.halfHeightPx)
  }

  /** The pulled x (FloatingCloseBubbleView.kt:119-125): towards the bubble's
      side of the screen, by a fifth of its offset from the centre scaled by
      the ratio; a NaN ratio makes the whole expression NaN, and NaN.toInt() is 0. */
  function PullX(l: CloseLayout, x: int, r: Ratio): (px: int)
    // a bubble left of the centre pulls the close bubble left, otherwise right
    ensures r.Num? && r.value >= 0.0 && x < l.halfScreenWidth ==> px <= l.baseX
    ensures r.Num? && r.value >= 0.0 && x >= l.halfScreenWidth ==> px >= l.baseX
    // the pull is damped by 5: at most a fifth of the offset, up to rounding
    ensures r.Num? && 0.0 <= r.value <= 1.0 && x < l.halfScreenWidth ==> 5 * (l.baseX - px) < l.halfScreenWidth - x + 5
    ensures r.Num? && 0.0 <= r.value <= 1.0 && x >= l.halfScreenWidth ==> 5 * (px - l.baseX) < x - l.halfScreenWidth + 5
  {
    match r
    case NaN => 0
    case Num(v) =>
      if x < l.halfScreenWidth then
        var u := l.halfScreenWidth - x;
        PulledLeft(l.baseX, u, v);
        Trunc(l.baseX as real - (u as real * v) / 5.0)
      else
        var u := x - l.halfScreenWidth;
        PulledRight(l.baseX, u, v);
        Trunc(l.baseX as real + (u as real * v) / 5.0)
  }

  /** Truncation moves a value by less than one, towards zero. */
  lemma TruncNear(v: real)
    ensures v - 1.0 < Trunc(v) as real < v + 1.0
    ensures v >= 0.0 ==> Trunc(v) as real <= v
    ensures v <= 0.0 ==> v <= Trunc(v) as real
  {
  }

  /** `Trunc(base - u * v / 5)` lies left of `base`, by less than u / 5 + 1 for a ratio up to 1. */
  lemma PulledLeft(base: int, u: int, v: real)
    requires u >= 0
    ensures var t := Trunc(base as real - (u as real * v) / 5.0);
      && (0.0 <= v ==> t <= base)
      && (0.0 <= v <= 1.0 ==> 5 * (base - t) < u + 5)
  {
    ScaledOffset(u as real, v);
    var w := (u as real * v) / 5.0;
    var t := Trunc(base as real - w);
    TruncNear(base as real - w);
    if 0.0 <= v {
      assert 0.0 <= w;
      assert (t as real) < base as real + 1.0;
      if v <= 1.0 {
        assert w <= u as real / 5.0;
        assert 5.0 * (base as real - t as real) < u as real + 5.0;
      }
    }
  }

  /** `Trunc(base + u * v / 5)` lies right of `base`, by less than u / 5 + 1 for a ratio up to 1. */
  lemma PulledRight(base: int, u: int, v: real)
    requires u >= 0
    ensures var t := Trunc(base as real + (u as real * v) / 5.0);
      && (0.0 <= v ==> t >= base)
      && (0.0 <= v <= 1.0 ==> 5 * (t - base) < u + 5)
  {
    ScaledOffset(u as real, v);
    var w := (u as real * v) / 5.0;
    var t := Trunc(base as real + w);
    TruncNear(base as real + w);
    if 0.0 <= v {
      assert 0.0 <= w;
      assert (t as real) > base as real - 1.0;
      if v <= 1.0 {
        assert w <= u as real / 5.0;
        assert 5.0 * (t as real - base as real) < u as real + 5.0;
      }
    }
  }

  /** The pulled y (FloatingCloseBubbleView.kt:127-134): up by a tenth of the
      bubble's height above the screen bottom scaled by the ratio, clamped to
      `LIMIT_FLY_HEIGHT`. */
  function PullY(l: CloseLayout, y: int, r: Ratio): (py: int)
    // the close bubble never rises more than LIMIT_FLY_HEIGHT above its baseline
    ensures py >= l.baseY - l.limitFlyHeight
    // and, for a bubble on the screen, never drops below it
    ensures r.Num? && r.value >= 0.0 && y <= l.screenHeightPx ==> py <= l.baseY
  {
    var lift := Lift(l, y, r);
    l.baseY - (if lift > l.limitFlyHeight then l.limitFlyHeight else lift)
  }

  /** The unclamped vertical pull, `((heightPx - y) * ratio / 10).toInt()`. */
  function Lift(l: CloseLayout, y: int, r: Ratio): (t: int)
    ensures r.Num? && r.value >= 0.0 && y <= l.screenHeightPx ==> t >= 0
  {
    match r
    case NaN => 0
    case Num(v) =>
      var off := (l.screenHeightPx - y) as real * v;
      ScaledOffset((l.screenHeightPx - y) as real, v);
      Trunc(off / 10.0)
  }

  /** Where `animateCloseIconByBubble(x, y)` puts the close bubble
      (FloatingCloseBubbleView.kt:111-137). A bubble within the capture
      radius gets the close bubble centred on it; any other is pulled. */
  function CloseIconTarget(l: CloseLayout, bubbleSizePx: Size, x: int, y: int, d: real): (p: Point)
    requires IsDistance(l, x, y, d)
    ensures Captured(l, x, y) ==> p == StickPoint(l, bubbleSizePx, x, y)
    ensures !Captured(l, x, y) ==> p == Point(PullX(l, x, DistanceRatio(l, x, y, d)), PullY(l, y, DistanceRatio(l, x, y, d)))
  {
    RatioZeroIffCaptured(l, x, y, d);
    var r := DistanceRatio(l, x, y, d);
    if r == Num(0.0) then StickPoint(l, bubbleSizePx, x, y) else Point(PullX(l, x, r), PullY(l, y, r))
  }

  /** A bubble outside the capture radius pulls the close bubble towards its
      side, and never more than LIMIT_FLY_HEIGHT upwards. */
  lemma OutsideBubblePullsCloseIcon(l: CloseLayout, bubbleSizePx: Size, x: int, y: int, d: real)
    requires IsDistance(l, x, y, d) && l.limitFlyHeight > 0 && !Captured(l, x, y)
    ensures var p := CloseIconTarget(l, bubbleSizePx, x, y, d);
      && l.baseY - l.limitFlyHeight <= p.y
      && (y <= l.screenHeightPx ==> p.y <= l.baseY)
      && (x < l.halfScreenWidth ==> p.x <= l.baseX)
      && (x >= l.halfScreenWidth ==> p.x >= l.baseX)
  {
    RatioZeroIffCaptured(l, x, y, d);
    RatioOutsideIsBetweenZeroAndOne(l, x, y, d);
  }

  // ---------------------------------------------------------------------------
  // The view

  /** `FloatingCloseBubbleView`: the layout fixed at construction, and the
      window position (`windowParams.x/y`) and visibility that change. */
  class CloseBubbleView {
    const layout: CloseLayout
    const icon: Image
    const alpha: real
    var x: int
    var y: int
    var shown: bool

    /** `init` (FloatingCloseBubbleView.kt:27-53, 71-90): computes the layout,
        picks the icon, and places the window at the baseline. */
    constructor (screen: ScreenInfo, closeBubbleSizePx: Size, bubbleSizePx: Size, closeIconBitmap: Option<Image>, opacity: real)
      ensures layout == MakeCloseLayout(screen, closeBubbleSizePx, bubbleSizePx)
      ensures icon == closeIconBitmap.GetOr(DefaultCloseIcon) && alpha == opacity
      ensures x == layout.baseX && y == layout.baseY
      ensures !shown
    {
      var l := MakeCloseLayout(screen, closeBubbleSizePx, bubbleSizePx);
      layout := l;
      icon := closeIconBitmap.GetOr(DefaultCloseIcon);
      alpha := opacity;
      x, y := l.baseX, l.baseY;
      shown := false;
    }

    /** `show()` of the base view: adds the window; a second call changes nothing. */
    method Show()
      modifies this`shown
      ensures shown
    {
      shown := true;
    }

    /** `remove()` of the base view: removes the window; a second call changes nothing. */
    method Remove()
      modifies this`shown
      ensures !shown
    {
      shown := false;
    }

    /** `stickToBubble`: centres the close bubble on the bubble. */
    method StickToBubble(bubbleX: int, bubbleY: int, bubbleSizePx: Size)
      modifies this`x, this`y
      ensures Point(x, y) == StickPoint(layout, bubbleSizePx, bubbleX, bubbleY)
    {
      var middleBubbleX := bubbleX + Half(bubbleSizePx.width);
      var middleBubbleY := bubbleY + Half(bubbleSizePx.height);
      x := middleBubbleX - layout.halfWidthPx;
      y := middleBubbleY - layout.halfHeightPx;
    }

    /** `animateCloseIconByBubble`: sticks to a captured bubble, otherwise
        pulls towards it. `d` is the distance from the bubble to the baseline;
        `bubbleSizePx` is the builder's bubble size at the time of the call. */
    method AnimateCloseIconByBubble(bubbleX: int, bubbleY: int, d: real, bubbleSizePx: Size)
      requires IsDistance(layout, bubbleX, bubbleY, d)
      modifies this`x, this`y
      ensures Point(x, y) == CloseIconTarget(layout, bubbleSizePx, bubbleX, bubbleY, d)
      ensures Captured(layout, bubbleX, bubbleY) ==> Point(x, y) == StickPoint(layout, bubbleSizePx, bubbleX, bubbleY)
      ensures !Captured(layout, bubbleX, bubbleY) && layout.limitFlyHeight > 0 ==>
        && layout.baseY - layout.limitFlyHeight <= y
        && (bubbleX < layout.halfScreenWidth ==> x <= layout.baseX)
        && (bubbleX >= layout.halfScreenWidth ==> x >= layout.baseX)
    {
      var distanceRatio := DistanceRatio(layout, bubbleX, bubbleY, d);
      if distanceRatio == Num(0.0) {
        StickToBubble(bubbleX, bubbleY, bubbleSizePx);
      } else {
        x := PullX(layout, bubbleX, distanceRatio);
        y := PullY(layout, bubbleY, distanceRatio);
      }
      RatioZeroIffCaptured(layout, bubbleX, bubbleY, d);
      if !Captured(layout, bubbleX, bubbleY) && layout.limitFlyHeight > 0 {
        OutsideBubblePullsCloseIcon(layout, bubbleSizePx, bubbleX, bubbleY, d);
      }
    }
  }
}
