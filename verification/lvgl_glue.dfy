/**
 The callbacks that glue LVGL to the panel, the touch controller and the
 periodic timer in the standalone application: the flush callback's coordinate
 conversion, the touch read callback's state mapping, and the tick bookkeeping.
 */
module LvglGlue {

  // ---------------------------------------------------------------- flush

  /** An LVGL area: the corners are both inclusive. */
  datatype Area = Area(x1: int, y1: int, x2: int, y2: int)

  /** The window passed to `esp_lcd_panel_draw_bitmap`: start inclusive, end exclusive. */
  datatype DrawWindow = DrawWindow(xStart: int, yStart: int, xEnd: int, yEnd: int)

  predicate InArea(a: Area, x: int, y: int)
  {
    a.x1 <= x <= a.x2 && a.y1 <= y <= a.y2
  }

  predicate InWindow(w: DrawWindow, x: int, y: int)
  {
    w.xStart <= x < w.xEnd && w.yStart <= y < w.yEnd
  }

  /**
   The flush callback's conversion of the area to redraw into the panel's draw
   window. The pixels drawn are exactly the pixels of the area, and the window is
   x2 - x1 + 1 columns wide and y2 - y1 + 1 rows high.
   */
  function FlushWindow(a: Area): (w: DrawWindow)
    ensures w.xStart == a.x1 && w.yStart == a.y1
    ensures w.xEnd - w.xStart == a.x2 - a.x1 + 1
    ensures w.yEnd - w.yStart == a.y2 - a.y1 + 1
    ensures forall x, y :: InArea(a, x, y) <==> InWindow(w, x, y)
  {
    DrawWindow(a.x1, a.y1, a.x2 + 1, a.y2 + 1)
  }

  /** The area a draw window covers, written back with inclusive corners. */
  function AreaOf(w: DrawWindow): (a: Area)
    ensures forall x, y :: InWindow(w, x, y) <==> InArea(a, x, y)
  {
    Area(w.xStart, w.yStart, w.xEnd - 1, w.yEnd - 1)
  }

  /** The conversion loses nothing: the window converts back to the very area LVGL asked for. */
  lemma {:induction false} FlushWindowRoundTrip(a: Area, w: DrawWindow)
    ensures AreaOf(FlushWindow(a)) == a
    ensures FlushWindow(AreaOf(w)) == w
  {
  }

  /** The number of pixels drawn is the area's width times its height. */
  function PixelCount(w: DrawWindow): int
  {
    (w.xEnd - w.xStart) * (w.yEnd - w.yStart)
  }

  lemma {:induction false} FlushPixelCount(a: Area)
    requires a.x1 <= a.x2 && a.y1 <= a.y2
    ensures PixelCount(FlushWindow(a)) == (a.x2 - a.x1 + 1) * (a.y2 - a.y1 + 1) > 0
  {
    var w := FlushWindow(a);
    assert w.xEnd - w.xStart > 0 && w.yEnd - w.yStart > 0;
  }

  // ---------------------------------------------------------------- touch

  /** Unsigned 8- and 16-bit values, as the touch driver reports them. */
  type U8 = n: int | 0 <= n < 0x100
  type U16 = n: int | 0 <= n < 0x1_0000

  datatype Point = Point(x: int, y: int)

  datatype IndevState = Pressed | Released

  /** The part of LVGL's input-device data the read callback fills in. */
  datatype IndevData = IndevData(point: Point, state: IndevState)

  /**
   What one read of the touch controller produced: whether the driver reports a
   press, the number of touch points, and the first point's coordinates (0 if
   the driver wrote none).
   */
  datatype TouchReading = TouchReading(pressed: bool, count: U8, x: U16, y: U16)

  /**
   The touch read callback: a press with at least one point reports PRESSED at
   the first point; anything else reports RELEASED and leaves the point as it was.
   */
  function TouchRead(data: IndevData, r: TouchReading): (d: IndevData)
    ensures d.state == Pressed <==> r.pressed && r.count > 0
    ensures d.state == Pressed ==> d.point == Point(r.x, r.y)
    ensures d.state == Released ==> d.point == data.point
  {
    if r.pressed && r.count > 0 then IndevData(Point(r.x, r.y), Pressed)
    else data.(state := Released)
  }

  /** A release reports the point of the last press, so LVGL sees where the finger was lifted. */
  lemma {:induction false} ReleaseKeepsLastPressPoint(data: IndevData, press: TouchReading, release: TouchReading)
    requires press.pressed && press.count > 0
    requires !(release.pressed && release.count > 0)
    ensures TouchRead(TouchRead(data, press), release) == IndevData(Point(press.x, press.y), Released)
  {
  }

  /** Reading the same controller data twice gives what reading it once gives. */
  lemma {:induction false} TouchReadIdempotent(data: IndevData, r: TouchReading)
    ensures TouchRead(TouchRead(data, r), r) == TouchRead(data, r)
  {
  }

  /** The callback's result depends on the previous data only through the point kept on release. */
  lemma {:induction false} TouchReadForgetsPrevious(a: IndevData, b: IndevData, r: TouchReading)
    ensures TouchRead(a, r).state == TouchRead(b, r).state
    ensures r.pressed && r.count > 0 ==> TouchRead(a, r) == TouchRead(b, r)
  {
  }

  // ---------------------------------------------------------------- tick

  /** HMI_LVGL_TICK_PERIOD_MS: milliseconds LVGL's clock advances per timer firing. */
  const TickPeriodMs: nat := 2

  /** Period given to the periodic esp_timer, in microseconds. */
  const TimerPeriodUs: nat := TickPeriodMs * 1000

  /** The tick callback: tell LVGL one period has elapsed. */
  function TickInc(lvglMs: nat): (t: nat)
    ensures t > lvglMs
    ensures 1000 * (t - lvglMs) == TimerPeriodUs
  {
    lvglMs + TickPeriodMs
  }

  /** LVGL's clock after `n` firings of the tick timer. */
  function AfterFirings(lvglMs: nat, n: nat): nat
    decreases n
  {
    if n == 0 then lvglMs else TickInc(AfterFirings(lvglMs, n - 1))
  }

  /** After `n` firings LVGL's clock has advanced by exactly the wall-clock time the timer took, `n` periods. */
  lemma {:induction false} LvglTimeMatchesTimer(lvglMs: nat, n: nat)
    ensures 1000 * (AfterFirings(lvglMs, n) - lvglMs) == n * TimerPeriodUs
    ensures AfterFirings(lvglMs, n) == lvglMs + n * TickPeriodMs
    decreases n
  {
    if n > 0 {
      LvglTimeMatchesTimer(lvglMs, n - 1);
    }
  }
}
