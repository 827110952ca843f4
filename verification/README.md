# WT32-SC01 Plus board support: a functional model

This project models the self-contained logic of a board-support package for
the WT32-SC01 Plus, an ESP32-S3 touchscreen module driven through LVGL. Almost
all of the package is a fixed sequence of vendor driver calls. The logic
around those calls is modelled as pure functions over integers and enums:

- **Backlight** (`backlight.dfy`): `bsp_display_brightness_set` clamps a
  percentage to [0, 100]. It turns that percentage into a 10-bit LEDC duty
  value with C's truncating division, then writes and latches it.
  `bsp_display_backlight_on` and `bsp_display_backlight_off` request 100 % and 0 %.
- **Bringup** (`bringup.dfy`): `bsp_display_start` is a list of abstract steps.
  An oracle says which vendor calls succeed. Start-up stops at the first
  checked step that fails. This module also covers the touch controller's
  creation and the agreement between the initial LVGL rotation and the panel
  mirroring set at bring-up.
- **Rotation** (`rotation.dfy`): maps each of the four LVGL rotations to the
  panel's axis swap and mirror flags and to the touch mirror flags. It also
  models the demo button's "next rotation" step.
- **RenderLock** (`render_lock.dfy`): the recursive LVGL mutex, seen from one
  task as a hold depth. It covers the `hmi_lvgl_lock` timeout convention, where
  -1 means wait forever. It also covers the lock/unlock brackets around widget
  construction.
- **RenderTask** (`render_task.dfy`): the render task's self-pacing loop. Each
  iteration locks, pumps, unlocks, clamps the next delay to [1, 500] ms and
  sleeps. The result of `lv_timer_handler` is an arbitrary natural number.
- **LvglGlue** (`lvgl_glue.dfy`): the flush callback turns an inclusive area
  into a half-open draw window. The touch read callback maps (pressed, count)
  to PRESSED/RELEASED. The tick callback advances LVGL time by the timer period.

Three facts about the code shape the model:

- The duty value is truncated, not rounded: 50 % gives 511.
- The minimum render delay is exactly 1 ms.
- For every rotation, the rotation callback resets the touch mirror flags to
  false. It does not rotate the touch mapping.

Two scope notes on the rotation model:

- `Rotation.FourPressesRestoreOrientation` combines two pieces of code. The
  button in main_ui.c sets the rotation of esp_lvgl_port's display
  (main_ui.c:15). The driver-update table is registered by the standalone
  application in main.c on its own display driver (main.c:338). The lemma
  states what the table would do if it followed the button's rotations.
- The touch half of the rotation table and the touch read callback exist only
  when `CONFIG_HMI_LCD_TOUCH_ENABLED` is set (main.c:147, 186). The model
  assumes it is set.

## Model

| member | source | states |
|---|---|---|
| Backlight.CDiv | components/wt32sc01plus/wt32sc01plus.c:97 | C's `/` truncates toward zero: for a non-negative dividend the quotient is the floor, for a negative one the ceiling |
| Backlight.ClampPercent | components/wt32sc01plus/wt32sc01plus.c:89-94 | the percentage ends up in [0, 100]; values in range are kept, values above 100 become 100, values below 0 become 0 |
| Backlight.DutyCycle | components/wt32sc01plus/wt32sc01plus.c:97 | the duty is in [0, 1023] and is the unique d with 100·d ≤ 1023·p < 100·(d+1) for the clamped percentage p, i.e. the truncated 1023·p/100 |
| Backlight.ProductFitsInInt | components/wt32sc01plus/wt32sc01plus.c:97 | the intermediate 1023·p is computed after clamping, lies in [0, 102300] and cannot overflow a 32-bit `int` |
| Backlight.FullScaleIsTimerResolution | components/wt32sc01plus/wt32sc01plus.c:72-97 | 100 % is full scale of the 10-bit LEDC timer: 1023 = 2^10 - 1 |
| Backlight.DutyCycleSamples | components/wt32sc01plus/wt32sc01plus.c:97 | 0 % gives 0, 50 % gives 511 (truncated), 100 % gives 1023 |
| Backlight.OutOfRangeRequestsSaturate | components/wt32sc01plus/wt32sc01plus.c:89-97 | any request above 100 writes the duty of 100 (1023); any request below 0 writes the duty of 0 (0) |
| Backlight.DutyCycleMonotone | components/wt32sc01plus/wt32sc01plus.c:89-97 | the duty never decreases as the requested percentage grows, including across the clamped regions |
| Backlight.BrightnessSet | components/wt32sc01plus/wt32sc01plus.c:87-102 | succeeds exactly when both LEDC calls succeed, and then the latched duty is the converted percentage; a failed write leaves the channel untouched; a failed latch leaves the written duty pending and the output unchanged |
| Backlight.BrightnessSetSaturates | components/wt32sc01plus/wt32sc01plus.c:89-99 | whatever the drivers report, a request above 100 behaves exactly like 100 and a request below 0 exactly like 0 |
| Backlight.BrightnessSetIdempotent | components/wt32sc01plus/wt32sc01plus.c:87-102 | applying the same brightness twice gives the same channel state as applying it once |
| Backlight.BacklightOn | components/wt32sc01plus/wt32sc01plus.c:109-112 | on success the channel is latched at full-scale duty 1023; on failure the driven output is unchanged |
| Backlight.BacklightOff | components/wt32sc01plus/wt32sc01plus.c:104-107 | on success the channel is latched at duty 0; on failure the driven output is unchanged |
| Backlight.OnOffAreSaturatedRequests | components/wt32sc01plus/wt32sc01plus.c:89-112 | any request of at least 100 equals switching on; any request of at most 0 equals switching off |
| Bringup.RunSteps | components/wt32sc01plus/wt32sc01plus.c:114-209 | the steps that run form a prefix of the sequence, in order; the run completes iff every checked step succeeds; otherwise it stops at the first checked step that fails, and every earlier step passed |
| Bringup.UncheckedStepsIrrelevant | components/wt32sc01plus/wt32sc01plus.c:174-177 | a run depends only on the outcomes of checked steps |
| Bringup.DisplayStart | components/wt32sc01plus/wt32sc01plus.c:114-209 | corrected start-up, with touch failures propagated: it returns a display handle iff every checked step of the bring-up succeeds, and NULL otherwise |
| Bringup.TouchHandleSet | components/wt32sc01plus/wt32sc01plus.c:236-240 | the global touch handle is non-NULL after touch creation iff both I2C steps and the IO creation succeed and the FT5x06 driver either succeeds or, failing, leaves a handle behind (a parameter); in particular it is set whenever all four steps succeed |
| Bringup.DisplayStartAsWritten | components/wt32sc01plus/wt32sc01plus.c:114-209 | start-up as written: it returns a display iff every checked step succeeds; it aborts at `assert(tp)` iff the display part and the I2C bus succeed but the touch IO creation fails, or the FT5x06 creation fails leaving the handle NULL; it hands `lvgl_port_add_touch` the left-over handle iff the FT5x06 creation fails leaving one behind; otherwise it returns NULL |
| Bringup.AsWrittenDiffersOnlyByPanic | components/wt32sc01plus/wt32sc01plus.c:40-52 | the code as written returns a display exactly when the corrected sequence does, and the same one; wherever the code as written does anything else, the corrected sequence returns NULL |
| Bringup.TouchIoFailurePanicsAsWritten | components/wt32sc01plus/wt32sc01plus.c:40-43 | with only the touch IO creation failing, start-up as written aborts at `assert(tp)` whatever the FT5x06 driver does on failure, while the corrected sequence returns NULL |
| Bringup.DriverFailureAsWritten | components/wt32sc01plus/wt32sc01plus.c:40-52 | with only the FT5x06 creation failing, start-up as written aborts at `assert(tp)` if the driver leaves the handle NULL and otherwise passes the left-over handle to `lvgl_port_add_touch`; the corrected sequence returns NULL |
| Bringup.DisplayStartIgnoresPanelTweaks | components/wt32sc01plus/wt32sc01plus.c:176-177 | flipping the outcome of colour inversion or mirroring never changes the result of start-up |
| Bringup.PanelInitFailureStopsStart | components/wt32sc01plus/wt32sc01plus.c:171-180 | when panel init fails, exactly the seven steps up to and including it run; the display is never switched on or registered |
| Bringup.TouchNewAsWritten | components/wt32sc01plus/wt32sc01plus.c:216-243 | as written, touch creation reports ESP_OK iff the two I2C bus steps succeed, whatever happens to IO and driver creation |
| Bringup.TouchNewAsWrittenMasksIoFailure | components/wt32sc01plus/wt32sc01plus.c:236-239 | there is an outcome where touch IO creation fails and the code as written still reports ESP_OK |
| Bringup.TouchNew | components/wt32sc01plus/wt32sc01plus.c:216-243 | with failures propagated, touch creation reports ESP_OK iff all four of its steps succeed |
| Bringup.TouchFailureAbortsStart | components/wt32sc01plus/wt32sc01plus.c:40-52 | with failures propagated, a failed touch IO creation makes start-up return NULL |
| Bringup.InitialRotationConsistent | components/wt32sc01plus/wt32sc01plus.c:174-197 | the LVGL port's initial rotation (no swap, mirror x, lines 193-197) equals the panel mirroring applied at line 177, which also equals the standalone application's bring-up mirroring (main.c:284) and the 0-degree entry of its rotation table |
| Rotation.NextRotation | main/main_ui.c:8-12 | the next rotation's enum value is the current one plus one, modulo 4; in degrees, plus 90 modulo 360 |
| Rotation.PressAdvancesOneStep | main/main_ui.c:9-12 | 270 degrees is the only rotation that wraps to 0; every other rotation advances by exactly 90 degrees |
| Rotation.PressesAdvanceOrdinal | main/main_ui.c:6-16 | k presses advance the enum value by k modulo 4 |
| Rotation.FourPressesRestoreRotation | main/main_ui.c:6-16 | four consecutive presses return the display to its starting rotation |
| Rotation.PressesReachEveryRotation | main/main_ui.c:9-12 | from any rotation, every rotation is reached in fewer than four presses |
| Rotation.PanelFor | main/main.c:142-183 | the panel swaps x and y exactly at 90 and 270 degrees; the 0-degree entry equals the mirroring the standalone application applies at bring-up (main.c:284) |
| Rotation.TouchFor | main/main.c:147-181 | for every rotation both touch mirror flags are cleared, matching the flags the touch controller is created with |
| Rotation.UpdateCallback | main/main.c:138-184 | the driver-update callback sets the panel from the rotation table, swapping axes exactly at 90 and 270 degrees, and always resets the touch controller to its creation flags |
| Rotation.PanelTableInjective | main/main.c:142-183 | two rotations get the same panel transform only if they are the same rotation |
| Rotation.HalfTurnInvertsBothMirrors | main/main.c:142-183 | a further half turn keeps the axis swap and inverts both mirror flags |
| Rotation.QuarterTurnTogglesSwap | main/main.c:142-183 | a quarter turn toggles the axis swap |
| Rotation.TouchMappingRotationIndependent | main/main.c:147-181 | the touch mapping is the same for every rotation |
| Rotation.FourPressesRestoreOrientation | main/main.c:138-184 | after four presses the panel and touch settings are those the display started with |
| RenderLock.WaitFor | main/main.c:86-92 | a timeout of -1 selects an infinite wait; any other value selects a finite wait of that many milliseconds |
| RenderLock.Acquire | main/main.c:91 | a take succeeds iff the task already holds the mutex, waits forever, or no other task holds it; success raises the depth by one; failure leaves an unheld mutex unheld |
| RenderLock.Lock | main/main.c:86-92 | `hmi_lvgl_lock` returns true iff the take succeeds, which happens exactly when the timeout is -1, the task already holds the mutex, or no other task holds it; a success deepens the hold by one and a failure changes nothing |
| RenderLock.Release | main/main.c:94-97 | a give by a holder lowers the depth by one; a give by a non-holder fails and changes nothing |
| RenderLock.AcquireReleaseBalanced | main/main.c:105-109 | a granted take followed by a give restores the depth the task started with |
| RenderLock.HolderTakesAgain | main/main.c:86-92 | the mutex is reentrant: a holder's take succeeds for every timeout |
| RenderLock.NestedSectionsRelease | main/main.c:86-97 | after n nested takes the mutex is still held after n-1 gives and released after exactly n |
| RenderLock.BracketedSection | main/main_ui.c:23-51 | the depth on exit equals the depth on entry, and the widget code ran under the mutex iff the take succeeded |
| RenderLock.AppMainSection | main/main.c:372-380 | the demo UI runs under the mutex, and the depth is unchanged afterwards |
| RenderTask.ClampDelay | main/main.c:110-114 | the delay ends up in [1, 500]; in-range values pass through; larger values become 500 and 0 becomes 1 |
| RenderTask.ClampDelayIdempotent | main/main.c:110-114 | clamping an already clamped delay changes nothing |
| RenderTask.ClampDelayMonotone | main/main.c:110-114 | a longer suggested delay never gives a shorter sleep |
| RenderTask.StepWithTimeout | main/main.c:105-115 | after an iteration the delay is in range and the depth is back where it was; a granted take uses the clamped pump result, a failed one the clamped previous delay |
| RenderTask.Iteration | main/main.c:103-116 | a render iteration always sleeps the clamped pump result, whether or not the lock was contended, and leaves the depth unchanged |
| RenderTask.FailedTakeReusesDelay | main/main.c:102-114 | if the take fails, the previous in-range delay is reused and the pump result ignored; from the task's start that delay is 500 |
| RenderTask.TaskTakeAlwaysGranted | main/main.c:90-105 | the render task's take (timeout -1) is granted whatever else holds the lock |
| RenderTask.RenderLoop | main/main.c:99-117 | over any finite run, the i-th sleep is the clamped i-th pump result, every sleep lies in [1, 500], the lock is not held at the end, and the carried delay is the last sleep |
| LvglGlue.FlushWindow | main/main.c:126-135 | the draw window starts at (x1, y1), is x2-x1+1 wide and y2-y1+1 high, and covers exactly the pixels of the inclusive area |
| LvglGlue.AreaOf | main/main.c:129-134 | a half-open draw window written as an inclusive area covers the same pixels |
| LvglGlue.FlushWindowRoundTrip | main/main.c:129-134 | area to window and window to area are inverse conversions |
| LvglGlue.FlushPixelCount | main/main.c:134 | a non-empty area is drawn as exactly (x2-x1+1)·(y2-y1+1) pixels |
| LvglGlue.TouchRead | main/main.c:187-206 | the state is PRESSED iff the driver reports a press with count > 0; a press reports the first point; a release keeps the previous point |
| LvglGlue.ReleaseKeepsLastPressPoint | main/main.c:199-205 | a release after a press reports the point of that press |
| LvglGlue.TouchReadIdempotent | main/main.c:199-205 | reading the same controller data twice gives the same result as reading it once |
| LvglGlue.TouchReadForgetsPrevious | main/main.c:199-205 | the reported state never depends on the previous data, and a press depends on nothing but the reading |
| LvglGlue.TickInc | main/main.c:209-213 | one tick callback advances LVGL's clock by exactly the time of one timer period: 1000 times the advance in ms equals the period in µs |
| LvglGlue.LvglTimeMatchesTimer | main/main.c:209-213 | after n timer firings LVGL's clock has advanced n·2 ms, the same time the timer took, n·2000 µs |

## Findings

| source | as written | input that shows it | evidently intended | confidence | as-written member | corrected member |
|---|---|---|---|---|---|---|
| components/wt32sc01plus/wt32sc01plus.c:238-239 | `bsp_touch_new` returns `esp_err_t`, but a failure of touch IO or FT5x06 driver creation makes it `return NULL`, which converts to 0, the value of ESP_OK | `esp_lcd_new_panel_io_i2c` fails while the I2C bus set-up succeeds | the failure is returned as an error, so `bsp_display_indev_init` and `bsp_display_start` return NULL | medium, not executed: assumes `BSP_ERROR_CHECK_RETURN_NULL` returns NULL on error; with the BSP's abort-on-error option it aborts instead | Bringup.TouchNewAsWritten | Bringup.TouchNew |
| components/wt32sc01plus/wt32sc01plus.c:42-43 | `bsp_display_indev_init` accepts the ESP_OK that the failed touch creation reports, then reaches `assert(tp)` while the touch handle is still NULL | `esp_lcd_new_panel_io_i2c` fails and every other step succeeds | `bsp_display_start` returns NULL at the touch step | medium, not executed: same macro assumption; also assumes assertions are enabled | Bringup.DisplayStartAsWritten | Bringup.DisplayStart |

`Bringup.TouchNewAsWrittenMasksIoFailure` and
`Bringup.TouchIoFailurePanicsAsWritten` exhibit the failing input.
`Bringup.TouchFailureAbortsStart` proves the intended behaviour of the
corrected sequence, and `Bringup.DisplayStart` uses that sequence.
`Bringup.AsWrittenDiffersOnlyByPanic` shows that the two versions differ only
on inputs where the code as written aborts.

## Left out

- Bus and peripheral bring-up are not modelled beyond their outcome. This covers the I80, SPI and I2C buses, panel IO, and the ST7796 and FT5x06 drivers. Each vendor call is one step whose success the oracle gives.
- The `assert(tp)` at wt32sc01plus.c:240 and the draw buffer allocation checks in main.c are left out. The `assert(tp)` at line 43 is modelled only as the `Panicked` outcome of `Bringup.DisplayStartAsWritten`, and builds with assertions disabled are not modelled.
- Bringup.DisplayStart: models the corrected touch sequence, not the code as written. `Bringup.DisplayStartAsWritten` models the code as written.
- Bringup.TouchHandleSet: the FT5x06 driver is not part of this model. Its success is taken to leave a non-NULL handle in `tp`. Whether a failed creation leaves a handle behind is the parameter `failedDriverSetsHandle`, and what `lvgl_port_add_touch` does with such a handle is not modelled (the `FailedHandleUsed` outcome).
- Bringup.Session: the display and input-device handles are positive numbers, since `BSP_NULL_CHECK` (wt32sc01plus.c:205-206) returns NULL before a start-up with a NULL handle could succeed. Handle values themselves are parameters.
- `bsp_err_check.h` is not part of this model. `BSP_ERROR_CHECK_RETURN_*` is read as "return on error" and `BSP_NULL_CHECK` as "return NULL on a NULL handle".
- `bsp_i2c_deinit`, `bsp_display_get_input_dev`, `bsp_display_rotate`, `bsp_display_lock` and `bsp_display_unlock` are left out. They are one-line pass-throughs to the I2C driver, a global handle, LVGL and esp_lvgl_port.
- `bsp_display_new`, `bsp_display_on`/`off`, SPIFFS and SD-card mounting are left out. Their bodies are not part of this model.
- `app_main`'s bring-up in main.c is left out. It uses `ESP_ERROR_CHECK`, which aborts on error instead of returning. Only its panel mirroring, tick timer and final locked section are modelled.
- The FreeRTOS mutex internals, task preemption and fairness are left out. The lock is a hold depth of the calling task plus a `contended` flag.
- RenderLock.Acquire: a finite wait is modelled as "granted unless another task holds the mutex throughout". The tick conversion `pdMS_TO_TICKS` and the wrap of a negative timeout other than -1 to a huge unsigned tick count are not modelled. Tick rates are configuration.
- RenderLock.BracketedSection: `lvgl_port_lock` belongs to esp_lvgl_port, which is not part of this model. Its wait is a parameter, not derived from the argument 0.
- RenderTask.RenderLoop: the task loops forever. The model runs it over any finite prefix of pump results. `vTaskDelay` and its tick conversion are left out, so the sleep is stated in milliseconds.
- `lv_timer_handler`, LVGL rendering, widgets and layout are left out. The pump result is an arbitrary natural number.
- LvglGlue.LvglTimeMatchesTimer: the clock is an unbounded natural number, and LVGL's 32-bit tick counter wrap-around is not modelled. The timer's scheduling jitter is not modelled either.
- LvglGlue.FlushWindow: coordinates are unbounded integers. LVGL's area coordinates are narrower than `int`, so `x2 + 1` cannot overflow in the source either.
- Backlight.BrightnessSet: the percentage is an unbounded integer, not a 32-bit `int`. Clamping makes the two agree. LEDC effects are reduced to a pending and an output duty value.
- The rotation callback makes the panel and touch updates as separate calls, and they are not atomic. The model gives their combined result only.
- main.c defines `HMI_LVGL_TICK_PERIOD_MS` twice (lines 69 and 75), both times as 2. The model has one constant.
- The panel and touch pin tables and other header constants are configuration data and are left out.
