/**
 Display bring-up of the WT32-SC01 Plus board (`bsp_display_start`).

 Every vendor call is an abstract step whose success is given by an oracle
 `ok: StepName -> bool`. Start-up runs the steps in a fixed order and stops at
 the first CHECKED step that fails, returning NULL; no later step runs. Two panel
 calls (colour inversion and mirroring) are made without looking at their
 result, so their failure never aborts start-up. The touch controller's
 creation is modelled twice: as written, where some of its failures read as
 ESP_OK and start-up then stops at an assertion, and with every failure
 propagated, which `DisplayStart` uses.
 */
module Bringup {
  import Rotation

  /** The vendor calls made during display bring-up, in the order they are made. */
  datatype StepName =
    | LedcTimerConfig      // backlight PWM timer
    | LedcChannelConfig    // backlight PWM channel
    | NewI80Bus            // Intel 8080 parallel bus
    | NewPanelIoI80        // panel IO on that bus
    | NewPanelSt7796       // ST7796 panel driver
    | PanelReset
    | PanelInit
    | PanelInvertColor     // result ignored
    | PanelMirror          // result ignored
    | PanelDisplayOn
    | LvglPortInit
    | LvglPortAddDisplay   // NULL-checked
    | I2cParamConfig       // touch I2C bus
    | I2cDriverInstall
    | NewTouchIoI2c        // touch panel IO on the I2C bus
    | NewTouchFt5x06       // FT5x06 touch driver
    | LvglPortAddTouch     // NULL-checked

  /** A call and whether its result is checked. */
  datatype Step = Step(name: StepName, checked: bool)

  /** The names of a step list, in order. */
  function Names(steps: seq<Step>): (names: seq<StepName>)
    ensures |names| == |steps|
    ensures forall i :: 0 <= i < |steps| ==> names[i] == steps[i].name
  {
    seq(|steps|, i requires 0 <= i < |steps| => steps[i].name)
  }

  /** A step does not stop the sequence: it is unchecked or it succeeded. */
  predicate Passes(s: Step, ok: StepName -> bool)
  {
    !s.checked || ok(s.name)
  }

  /** The outcome of running a step list: every step ran, or it stopped at a failing checked step. */
  datatype Run =
    | Completed(ran: seq<StepName>)
    | Aborted(ran: seq<StepName>, failed: StepName)

  /**
   Runs the steps in order and stops right after the first checked step that
   fails. The steps that ran are a prefix of the list; the run completes exactly
   when every step passes, and otherwise the step it stopped at is the first one
   that does not pass.
   */
  function RunSteps(steps: seq<Step>, ok: StepName -> bool): (r: Run)
    ensures |r.ran| <= |steps| && r.ran == Names(steps[..|r.ran|])
    ensures r.Completed? <==> forall i :: 0 <= i < |steps| ==> Passes(steps[i], ok)
    ensures r.Completed? ==> |r.ran| == |steps|
    ensures r.Aborted? ==>
              && 0 < |r.ran|
              && r.failed == steps[|r.ran| - 1].name
              && !Passes(steps[|r.ran| - 1], ok)
              && forall i :: 0 <= i < |r.ran| - 1 ==> Passes(steps[i], ok)
    decreases |steps|
  {
    if |steps| == 0 then Completed([])
    else if !Passes(steps[0], ok) then Aborted([steps[0].name], steps[0].name)
    else
      match RunSteps(steps[1..], ok)
      case Completed(rest) => Completed([steps[0].name] + rest)
      case Aborted(rest, f) => Aborted([steps[0].name] + rest, f)
  }

  /** Steps whose result is not checked cannot influence a run: only the checked steps' outcomes matter. */
  lemma {:induction false} UncheckedStepsIrrelevant(steps: seq<Step>, ok: StepName -> bool, ok': StepName -> bool)
    requires forall i :: 0 <= i < |steps| && steps[i].checked ==> ok(steps[i].name) == ok'(steps[i].name)
    ensures RunSteps(steps, ok) == RunSteps(steps, ok')
    decreases |steps|
  {
    if |steps| > 0 {
      UncheckedStepsIrrelevant(steps[1..], ok, ok');
    }
  }

  /** `bsp_display_brightness_init`: configure the backlight PWM timer, then its channel. */
  const BrightnessInitSteps: seq<Step> := [Step(LedcTimerConfig, true), Step(LedcChannelConfig, true)]

  /** The panel part of the bring-up, up to switching the display on. */
  const PanelSteps: seq<Step> := [
    Step(NewI80Bus, true),
    Step(NewPanelIoI80, true),
    Step(NewPanelSt7796, true),
    Step(PanelReset, true),
    Step(PanelInit, true),
    Step(PanelInvertColor, false),
    Step(PanelMirror, false),
    Step(PanelDisplayOn, true)
  ]

  /** Registering the display with the LVGL port. */
  const LvglSteps: seq<Step> := [Step(LvglPortInit, true), Step(LvglPortAddDisplay, true)]

  /** `bsp_touch_new` with every failure propagated to its caller. */
  const TouchNewSteps: seq<Step> := [
    Step(I2cParamConfig, true),
    Step(I2cDriverInstall, true),
    Step(NewTouchIoI2c, true),
    Step(NewTouchFt5x06, true)
  ]

  /** `bsp_display_indev_init`: create the touch controller, then register it with the LVGL port. */
  const IndevInitSteps: seq<Step> := TouchNewSteps + [Step(LvglPortAddTouch, true)]

  /** `bsp_display_start` up to the touch input: backlight, panel and LVGL display registration. */
  const DisplaySteps: seq<Step> := BrightnessInitSteps + PanelSteps + LvglSteps

  /** The whole of `bsp_display_start`. */
  const DisplayStartSteps: seq<Step> := DisplaySteps + IndevInitSteps

  datatype Option<T> = None | Some(value: T)

  /** A non-NULL handle handed out by the LVGL port. */
  type Handle = n: nat | n > 0 witness 1

  /** Handles produced by a successful start: the LVGL display and its touch input device, both non-NULL. */
  datatype Session = Session(display: Handle, indev: Handle)

  /**
   `bsp_display_start`: the display handle, or NULL (`None`) as soon as a checked
   step fails. `display` and `indev` are the handles the LVGL port hands out.
   */
  function DisplayStart(ok: StepName -> bool, display: Handle, indev: Handle): (r: Option<Session>)
    ensures r.Some? <==> forall i :: 0 <= i < |DisplayStartSteps| && DisplayStartSteps[i].checked ==> ok(DisplayStartSteps[i].name)
    ensures r.Some? ==> r.value == Session(display, indev)
  {
    match RunSteps(DisplayStartSteps, ok)
    case Completed(_) => Some(Session(display, indev))
    case Aborted(_, _) => None
  }

  /** Inversion and mirroring are made without looking at their results: their failure changes nothing. */
  lemma {:induction false} DisplayStartIgnoresPanelTweaks(ok: StepName -> bool, display: Handle, indev: Handle)
    ensures var ok' := (n: StepName) => if n == PanelInvertColor || n == PanelMirror then !ok(n) else ok(n);
            DisplayStart(ok', display, indev) == DisplayStart(ok, display, indev)
  {
    var ok' := (n: StepName) => if n == PanelInvertColor || n == PanelMirror then !ok(n) else ok(n);
    UncheckedStepsIrrelevant(DisplayStartSteps, ok, ok');
  }

  /** A failing panel init aborts start-up there: the display is never switched on nor registered with LVGL. */
  lemma {:induction false} PanelInitFailureStopsStart(ok: StepName -> bool)
    requires ok(LedcTimerConfig) && ok(LedcChannelConfig) && ok(NewI80Bus)
    requires ok(NewPanelIoI80) && ok(NewPanelSt7796) && ok(PanelReset)
    requires !ok(PanelInit)
    ensures RunSteps(DisplayStartSteps, ok) ==
              Aborted([LedcTimerConfig, LedcChannelConfig, NewI80Bus, NewPanelIoI80, NewPanelSt7796, PanelReset, PanelInit], PanelInit)
  {
    var r := RunSteps(DisplayStartSteps, ok);
    assert DisplayStartSteps[6].name == PanelInit;
    assert forall i :: 0 <= i < 6 ==> Passes(DisplayStartSteps[i], ok);
  }

  /** `esp_err_t` values: ESP_OK, and ESP_FAIL standing for whichever error a driver call returned. */
  const EspOk: int := 0
  const EspFail: int := -1

  /** The null pointer, converted to an integer. */
  const Null: int := 0

  /**
   The touch controller's creation as written: the I2C bus set-up propagates
   its error, but the IO and driver creation steps `return NULL` on failure
   from a function whose result is an `esp_err_t`, so their failure reads as
   0, the value of ESP_OK.
   */
  function TouchNewAsWritten(ok: StepName -> bool): (err: int)
    ensures err == EspOk <==> ok(I2cParamConfig) && ok(I2cDriverInstall)
  {
    if !ok(I2cParamConfig) || !ok(I2cDriverInstall) then EspFail
    else if !ok(NewTouchIoI2c) then Null
    else if !ok(NewTouchFt5x06) then Null
    else EspOk
  }

  /** With the touch IO creation failing, the code as written still reports ESP_OK to the start-up sequence. */
  lemma TouchNewAsWrittenMasksIoFailure()
    ensures var ok := (n: StepName) => n != NewTouchIoI2c;
            TouchNewAsWritten(ok) == EspOk && !ok(NewTouchIoI2c)
  {
  }

  /** The touch controller's creation with every failure reported: ESP_OK exactly when all four steps succeed. */
  function TouchNew(ok: StepName -> bool): (err: int)
    ensures err == EspOk <==> ok(I2cParamConfig) && ok(I2cDriverInstall) && ok(NewTouchIoI2c) && ok(NewTouchFt5x06)
  {
    if RunSteps(TouchNewSteps, ok).Completed? then EspOk else EspFail
  }

  /**
   With failures propagated, a failed touch IO creation makes start-up return
   NULL, where the code as written would report the touch controller created.
   */
  lemma {:induction false} TouchFailureAbortsStart(ok: StepName -> bool, display: Handle, indev: Handle)
    requires !ok(NewTouchIoI2c)
    ensures TouchNew(ok) != EspOk
    ensures DisplayStart(ok, display, indev) == None
  {
    assert DisplayStartSteps[|DisplaySteps| + 2] == Step(NewTouchIoI2c, true);
  }

  /**
   Whether the global touch handle `tp` is non-NULL after the touch
   controller's creation. The handle starts out NULL and is written only by the
   FT5x06 driver, which is not called when an earlier step fails and which
   writes it when it succeeds. The FT5x06 driver is not part of this model, so
   what it leaves in the handle when it fails is the parameter
   `failedDriverSetsHandle`.
   */
  function TouchHandleSet(ok: StepName -> bool, failedDriverSetsHandle: bool): (isSet: bool)
    ensures isSet <==>
              && ok(I2cParamConfig) && ok(I2cDriverInstall) && ok(NewTouchIoI2c)
              && (ok(NewTouchFt5x06) || failedDriverSetsHandle)
    ensures RunSteps(TouchNewSteps, ok).Completed? ==> isSet
  {
    match RunSteps(TouchNewSteps, ok)
    case Completed(_) => true
    case Aborted(_, failed) => failed == NewTouchFt5x06 && failedDriverSetsHandle
  }

  /**
   What `bsp_display_start` as written can end in: a display, NULL, the failed
   `assert(tp)` aborting the program, or `lvgl_port_add_touch` being handed the
   handle a failed FT5x06 creation left behind (whose effect is not modelled).
   */
  datatype StartOutcome = Started(session: Session) | ReturnedNull | Panicked | FailedHandleUsed

  /**
   `bsp_display_start` as written: the display part stops with NULL at its
   first failing checked step; the touch part takes `bsp_touch_new`'s result as
   written, so a failed IO or driver creation passes the error check and reaches
   `assert(tp)`, which stops the program if the handle is still NULL.
   */
  function DisplayStartAsWritten(ok: StepName -> bool, failedDriverSetsHandle: bool, display: Handle, indev: Handle): (r: StartOutcome)
    ensures r.Started? <==> forall i :: 0 <= i < |DisplayStartSteps| && DisplayStartSteps[i].checked ==> ok(DisplayStartSteps[i].name)
    ensures r.Started? ==> r.session == Session(display, indev)
    ensures r.Panicked? <==>
              && (forall i :: 0 <= i < |DisplaySteps| ==> Passes(DisplaySteps[i], ok))
              && ok(I2cParamConfig) && ok(I2cDriverInstall)
              && (!ok(NewTouchIoI2c) || (!ok(NewTouchFt5x06) && !failedDriverSetsHandle))
    ensures r.FailedHandleUsed? <==>
              && (forall i :: 0 <= i < |DisplaySteps| ==> Passes(DisplaySteps[i], ok))
              && ok(I2cParamConfig) && ok(I2cDriverInstall) && ok(NewTouchIoI2c)
              && !ok(NewTouchFt5x06) && failedDriverSetsHandle
  {
    var displayRun := RunSteps(DisplaySteps, ok);
    assert forall i :: 0 <= i < |DisplaySteps| ==> DisplayStartSteps[i] == DisplaySteps[i];
    var k := |DisplaySteps|;
    assert DisplayStartSteps[k] == Step(I2cParamConfig, true) && DisplayStartSteps[k + 1] == Step(I2cDriverInstall, true);
    assert DisplayStartSteps[k + 2] == Step(NewTouchIoI2c, true) && DisplayStartSteps[k + 3] == Step(NewTouchFt5x06, true);
    assert DisplayStartSteps[k + 4] == Step(LvglPortAddTouch, true) && |DisplayStartSteps| == k + 5;
    if displayRun.Aborted? then ReturnedNull
    else if TouchNewAsWritten(ok) != EspOk then ReturnedNull
    else if !TouchHandleSet(ok, failedDriverSetsHandle) then Panicked
    else if !ok(NewTouchFt5x06) then FailedHandleUsed
    else if !ok(LvglPortAddTouch) then ReturnedNull
    else Started(Session(display, indev))
  }

  /**
   The code as written and the corrected sequence give the same display exactly
   when start-up succeeds; every other ending of the code as written is NULL in
   the corrected sequence.
   */
  lemma {:induction false} AsWrittenDiffersOnlyByPanic(ok: StepName -> bool, failedDriverSetsHandle: bool, display: Handle, indev: Handle)
    ensures var w, c := DisplayStartAsWritten(ok, failedDriverSetsHandle, display, indev), DisplayStart(ok, display, indev);
            && (w.Started? <==> c.Some?)
            && (w.Started? ==> c == Some(w.session))
            && (!w.Started? ==> c == None)
  {
  }

  /**
   With only the touch IO creation failing, start-up as written ends at the
   failed `assert(tp)` rather than returning NULL as intended, whatever the
   FT5x06 driver does on failure: it is never called.
   */
  lemma TouchIoFailurePanicsAsWritten(failedDriverSetsHandle: bool, display: Handle, indev: Handle)
    ensures var ok := (n: StepName) => n != NewTouchIoI2c;
            && DisplayStartAsWritten(ok, failedDriverSetsHandle, display, indev) == Panicked
            && DisplayStart(ok, display, indev) == None
  {
    var ok := (n: StepName) => n != NewTouchIoI2c;
    assert forall i :: 0 <= i < |DisplaySteps| ==> Passes(DisplaySteps[i], ok);
    TouchFailureAbortsStart(ok, display, indev);
  }

  /**
   With only the FT5x06 creation failing, start-up as written stops at
   `assert(tp)` if the driver left the handle NULL, and otherwise hands the
   left-over handle to `lvgl_port_add_touch`; the corrected sequence returns NULL.
   */
  lemma DriverFailureAsWritten(failedDriverSetsHandle: bool, display: Handle, indev: Handle)
    ensures var ok := (n: StepName) => n != NewTouchFt5x06;
            && DisplayStartAsWritten(ok, failedDriverSetsHandle, display, indev)
               == (if failedDriverSetsHandle then FailedHandleUsed else Panicked)
            && DisplayStart(ok, display, indev) == None
  {
    var ok := (n: StepName) => n != NewTouchFt5x06;
    assert forall i :: 0 <= i < |DisplaySteps| ==> Passes(DisplaySteps[i], ok);
    assert DisplayStartSteps[|DisplaySteps| + 3] == Step(NewTouchFt5x06, true);
  }

  /** The rotation the LVGL port's display configuration says the panel starts in (wt32sc01plus.c:193-197). */
  const PortInitialRotation: Rotation.PanelTransform := Rotation.PanelTransform(false, true, false)

  /**
   The panel's orientation after `bsp_display_start`'s own mirror call
   (wt32sc01plus.c:177): axes unswapped (the driver default), mirrored in x only.
   */
  const BringUpOrientation: Rotation.PanelTransform := Rotation.PanelTransform(false, true, false)

  /**
   The LVGL port's initial rotation agrees with what the panel was set to at
   bring-up, and with both the standalone application's bring-up mirroring and
   the 0-degree entry of its rotation table.
   */
  lemma InitialRotationConsistent()
    ensures PortInitialRotation == BringUpOrientation
    ensures BringUpOrientation == Rotation.StandaloneBringUpTransform == Rotation.PanelFor(Rotation.Rot0)
  {
  }
}
