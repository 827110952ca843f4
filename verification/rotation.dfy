/**
 Display rotation: the four LVGL rotations, the table that turns a rotation into
 the panel's axis swap and mirroring (and the touch controller's mirroring), and
 the "next rotation" step taken by the on-screen button.
 */
module Rotation {

  /** LVGL's display rotation; the enum values are 0, 1, 2, 3 in this order. */
  datatype Rotation = Rot0 | Rot90 | Rot180 | Rot270

  /** The enum's integer value. */
  function Ordinal(r: Rotation): (n: nat)
    ensures n < 4
  {
    match r
    case Rot0 => 0
    case Rot90 => 1
    case Rot180 => 2
    case Rot270 => 3
  }

  /** The rotation with a given enum value, if there is one. */
  function FromOrdinal(n: int): (r: Rotation)
    requires 0 <= n < 4
    ensures Ordinal(r) == n
  {
    if n == 0 then Rot0 else if n == 1 then Rot90 else if n == 2 then Rot180 else Rot270
  }

  /** Clockwise angle in degrees. */
  function Degrees(r: Rotation): (deg: nat)
    ensures deg == 90 * Ordinal(r)
  {
    match r
    case Rot0 => 0
    case Rot90 => 90
    case Rot180 => 180
    case Rot270 => 270
  }

  /**
   The button callback of the demo UI: read the current rotation, increment the
   enum value, and wrap to 0 when it passes 270 degrees.
   */
  function NextRotation(r: Rotation): (next: Rotation)
    ensures Ordinal(next) == (Ordinal(r) + 1) % 4
    ensures Degrees(next) == (Degrees(r) + 90) % 360
  {
    var n := Ordinal(r) + 1;
    if n > Ordinal(Rot270) then Rot0 else FromOrdinal(n)
  }

  /** `k` consecutive button presses. */
  function Presses(r: Rotation, k: nat): Rotation
    decreases k
  {
    if k == 0 then r else Presses(NextRotation(r), k - 1)
  }

  /** Every press moves one step: 270 degrees wraps to 0, every other rotation advances by 90 degrees. */
  lemma {:induction false} PressAdvancesOneStep(r: Rotation)
    ensures r == Rot270 <==> NextRotation(r) == Rot0
    ensures r != Rot270 ==> Degrees(NextRotation(r)) == Degrees(r) + 90
  {
  }

  /** `k` presses advance the enum value by `k` modulo 4. */
  lemma {:induction false} PressesAdvanceOrdinal(r: Rotation, k: nat)
    ensures Ordinal(Presses(r, k)) == (Ordinal(r) + k) % 4
    decreases k
  {
    if k > 0 {
      PressesAdvanceOrdinal(NextRotation(r), k - 1);
    }
  }

  /** Four consecutive presses return the display to the rotation it started in. */
  lemma {:induction false} FourPressesRestoreRotation(r: Rotation)
    ensures Presses(r, 4) == r
  {
    PressesAdvanceOrdinal(r, 4);
    OrdinalInjective(r, Presses(r, 4));
  }

  /** Pressing cycles through all four rotations: each is reached from any start in fewer than four presses. */
  lemma {:induction false} PressesReachEveryRotation(start: Rotation, target: Rotation)
    ensures Presses(start, (Ordinal(target) - Ordinal(start) + 4) % 4) == target
  {
    var k := (Ordinal(target) - Ordinal(start) + 4) % 4;
    PressesAdvanceOrdinal(start, k);
    OrdinalInjective(target, Presses(start, k));
  }

  lemma OrdinalInjective(a: Rotation, b: Rotation)
    ensures Ordinal(a) == Ordinal(b) ==> a == b
  {
  }

  /** Axis swap and mirroring applied to the LCD panel (`esp_lcd_panel_swap_xy` / `esp_lcd_panel_mirror`). */
  datatype PanelTransform = PanelTransform(swapXY: bool, mirrorX: bool, mirrorY: bool)

  /** Mirroring applied to the touch controller (`esp_lcd_touch_set_mirror_x` / `_y`). */
  datatype TouchMirror = TouchMirror(mirrorX: bool, mirrorY: bool)

  /**
   Mirroring the standalone application applies to the panel once at bring-up,
   right after its init sequence (main.c:284); the axes stay unswapped.
   */
  const StandaloneBringUpTransform: PanelTransform := PanelTransform(false, true, false)

  /** Touch controller flags at creation: no swap, no mirroring. */
  const BringUpTouchMirror: TouchMirror := TouchMirror(false, false)

  /** The panel half of the driver-update callback's table. */
  function PanelFor(r: Rotation): (t: PanelTransform)
    ensures t.swapXY <==> r == Rot90 || r == Rot270
    ensures r == Rot0 ==> t == StandaloneBringUpTransform
  {
    match r
    case Rot0 => PanelTransform(false, true, false)
    case Rot90 => PanelTransform(true, true, true)
    case Rot180 => PanelTransform(false, false, true)
    case Rot270 => PanelTransform(true, false, false)
  }

  /** The touch half of the driver-update callback's table: both flags are cleared for every rotation. */
  function TouchFor(r: Rotation): (m: TouchMirror)
    ensures m == BringUpTouchMirror
  {
    match r
    case Rot0 => TouchMirror(false, false)
    case Rot90 => TouchMirror(false, false)
    case Rot180 => TouchMirror(false, false)
    case Rot270 => TouchMirror(false, false)
  }

  /** Everything the driver-update callback sets for a rotation. */
  datatype Orientation = Orientation(panel: PanelTransform, touch: TouchMirror)

  /**
   `hmi_lvgl_port_update_callback`: the panel follows the rotation table, and
   the touch controller is put back to its creation flags whatever the rotation.
   */
  function UpdateCallback(r: Rotation): (o: Orientation)
    ensures o.panel == PanelFor(r) && o.touch == BringUpTouchMirror
    ensures o.panel.swapXY <==> Degrees(r) % 180 == 90
  {
    Orientation(PanelFor(r), TouchFor(r))
  }

  /** Distinct rotations drive the panel differently, so the table loses no rotation. */
  lemma {:induction false} PanelTableInjective(a: Rotation, b: Rotation)
    ensures PanelFor(a) == PanelFor(b) <==> a == b
  {
  }

  /**
   Turning by a further 180 degrees keeps the axis swap and inverts both mirror
   flags, as a half turn of the image should.
   */
  lemma {:induction false} HalfTurnInvertsBothMirrors(r: Rotation)
    ensures var t, h := PanelFor(r), PanelFor(Presses(r, 2));
            h.swapXY == t.swapXY && h.mirrorX == !t.mirrorX && h.mirrorY == !t.mirrorY
  {
    assert Presses(r, 2) == NextRotation(NextRotation(r));
  }

  /** A quarter turn toggles the axis swap. */
  lemma {:induction false} QuarterTurnTogglesSwap(r: Rotation)
    ensures PanelFor(NextRotation(r)).swapXY == !PanelFor(r).swapXY
  {
  }

  /** The touch mapping never changes with rotation: it is the one set when the touch controller is created. */
  lemma {:induction false} TouchMappingRotationIndependent(a: Rotation, b: Rotation)
    ensures UpdateCallback(a).touch == UpdateCallback(b).touch == BringUpTouchMirror
  {
  }

  /** Four button presses bring the panel and touch back to the orientation they started in. */
  lemma {:induction false} FourPressesRestoreOrientation(r: Rotation)
    ensures UpdateCallback(Presses(r, 4)) == UpdateCallback(r)
  {
    FourPressesRestoreRotation(r);
  }
}
