/**
 Backlight brightness of the WT32-SC01 Plus board.

 The backlight is driven by an LEDC PWM channel whose timer has a 10-bit duty
 resolution, so full brightness is the duty value 1023. A brightness request is
 a C `int` percentage: it is clamped to [0, 100] and converted to a duty value
 with C's truncating integer division, then written to the channel
 (`ledc_set_duty`) and latched (`ledc_update_duty`). Either driver call may fail;
 the first failure is returned and the later call is skipped.
 */
module Backlight {

  /** Width of the LEDC timer's duty counter (LEDC_TIMER_10_BIT). */
  const DutyResolutionBits: nat := 10

  /** Duty value for 100 % brightness: 2^10 - 1. */
  const MaxDuty: nat := 1023

  /** Largest value of a 32-bit signed C `int`. */
  const IntMax: int := 0x7fff_ffff

  /** C's `/` on `int`: the quotient is truncated toward zero (Dafny's `/` is Euclidean). */
  function CDiv(a: int, b: int): (q: int)
    requires b > 0
    ensures a >= 0 ==> q * b <= a < (q + 1) * b
    ensures a < 0 ==> (q - 1) * b < a <= q * b
  {
    if a >= 0 then a / b else -((-a) / b)
  }

  /** The percentage after the two range checks of the brightness setter. */
  function ClampPercent(percent: int): (p: int)
    ensures 0 <= p <= 100
    ensures 0 <= percent <= 100 ==> p == percent
    ensures percent > 100 ==> p == 100
    ensures percent < 0 ==> p == 0
  {
    var upper := if percent > 100 then 100 else percent;
    if upper < 0 then 0 else upper
  }

  /**
   The duty value written for a requested percentage: the largest duty whose
   share of 100 does not exceed 1023 * percent, i.e. the floor of
   1023 * percent / 100 for the clamped percentage.
   */
  function DutyCycle(percent: int): (duty: int)
    ensures 0 <= duty <= MaxDuty
    ensures duty * 100 <= MaxDuty * ClampPercent(percent) < (duty + 1) * 100
  {
    var p := ClampPercent(percent);
    ProductFitsInInt(percent);
    CDiv(MaxDuty * p, 100)
  }

  /** The intermediate product `1023 * percent` is computed after clamping, so it never overflows a C `int`. */
  lemma ProductFitsInInt(percent: int)
    ensures 0 <= MaxDuty * ClampPercent(percent) <= MaxDuty * 100 < IntMax
  {
    var p := ClampPercent(percent);
    assert MaxDuty * p <= MaxDuty * 100 by {
      assert 100 - p >= 0;
      assert MaxDuty * 100 - MaxDuty * p == MaxDuty * (100 - p);
    }
  }

  /** The duty for 100 % is the full scale of the 10-bit timer. */
  lemma FullScaleIsTimerResolution()
    ensures DutyCycle(100) == MaxDuty
    ensures MaxDuty + 1 == Pow2(DutyResolutionBits)
  {
    assert Pow2(DutyResolutionBits) == 1024;
  }

  /** 2 to the power n. */
  function Pow2(n: nat): (r: nat)
    ensures r >= 1
  {
    if n == 0 then 1 else 2 * Pow2(n - 1)
  }

  /** Fixed points of the conversion: 0 % is off, 50 % truncates to 511, 100 % is full scale. */
  lemma DutyCycleSamples()
    ensures DutyCycle(0) == 0
    ensures DutyCycle(50) == 511
    ensures DutyCycle(100) == MaxDuty
  {
  }

  /** Any request above 100 % writes the same duty as 100 %, any request below 0 % the same as 0 %. */
  lemma {:induction false} OutOfRangeRequestsSaturate(percent: int)
    ensures percent > 100 ==> DutyCycle(percent) == DutyCycle(100) == MaxDuty
    ensures percent < 0 ==> DutyCycle(percent) == DutyCycle(0) == 0
  {
    DutyCycleSamples();
  }

  /** A larger request never gives a dimmer backlight, including across the clamped regions. */
  lemma {:induction false} DutyCycleMonotone(lo: int, hi: int)
    requires lo <= hi
    ensures DutyCycle(lo) <= DutyCycle(hi)
  {
    var pl, ph := ClampPercent(lo), ClampPercent(hi);
    assert pl <= ph;
    var dl, dh := DutyCycle(lo), DutyCycle(hi);
    assert MaxDuty * pl <= MaxDuty * ph by {
      assert MaxDuty * ph - MaxDuty * pl == MaxDuty * (ph - pl);
    }
    assert dl * 100 < (dh + 1) * 100;
  }

  /** State of the backlight LEDC channel: the duty written but not yet latched, and the duty driving the pin. */
  datatype Channel = Channel(pending: int, output: int)

  /** Result of the setter: `ESP_OK` with the new channel, or the first failing driver call's error. */
  datatype SetResult =
    | Applied(channel: Channel)
    | SetDutyFailed(channel: Channel)
    | UpdateDutyFailed(channel: Channel)
  {
    predicate IsOk() { Applied? }
  }

  /**
   `bsp_display_brightness_set`: clamp, convert, write the duty and latch it.
   `setDutyOk` and `updateDutyOk` are the results of the two LEDC driver calls.
   */
  function BrightnessSet(ch: Channel, percent: int, setDutyOk: bool, updateDutyOk: bool): (r: SetResult)
    ensures r.IsOk() <==> setDutyOk && updateDutyOk
    ensures r.IsOk() ==> r.channel.output == r.channel.pending == DutyCycle(percent)
    ensures !setDutyOk ==> r.SetDutyFailed? && r.channel == ch
    ensures setDutyOk && !updateDutyOk ==>
              r.UpdateDutyFailed? && r.channel.pending == DutyCycle(percent) && r.channel.output == ch.output
    ensures 0 <= r.channel.output <= MaxDuty || r.channel.output == ch.output
  {
    var duty := DutyCycle(percent);
    if !setDutyOk then SetDutyFailed(ch)
    else
      var written := ch.(pending := duty);
      if !updateDutyOk then UpdateDutyFailed(written)
      else Applied(written.(output := duty))
  }

  /** Requests above 100 % and below 0 % behave exactly like 100 % and 0 %, whatever the drivers report. */
  lemma {:induction false} BrightnessSetSaturates(ch: Channel, percent: int, setDutyOk: bool, updateDutyOk: bool)
    ensures percent > 100 ==>
              BrightnessSet(ch, percent, setDutyOk, updateDutyOk) == BrightnessSet(ch, 100, setDutyOk, updateDutyOk)
    ensures percent < 0 ==>
              BrightnessSet(ch, percent, setDutyOk, updateDutyOk) == BrightnessSet(ch, 0, setDutyOk, updateDutyOk)
  {
    OutOfRangeRequestsSaturate(percent);
  }

  /** Setting the same brightness twice leaves the channel as one successful setting does. */
  lemma {:induction false} BrightnessSetIdempotent(ch: Channel, percent: int)
    ensures var once := BrightnessSet(ch, percent, true, true);
            BrightnessSet(once.channel, percent, true, true) == once
  {
  }

  /** `bsp_display_backlight_on`: brightness 100 %, i.e. full-scale duty. */
  function BacklightOn(ch: Channel, setDutyOk: bool, updateDutyOk: bool): (r: SetResult)
    ensures r.IsOk() <==> setDutyOk && updateDutyOk
    ensures r.IsOk() ==> r.channel == Channel(MaxDuty, MaxDuty)
    ensures !r.IsOk() ==> r.channel.output == ch.output
  {
    DutyCycleSamples();
    BrightnessSet(ch, 100, setDutyOk, updateDutyOk)
  }

  /** `bsp_display_backlight_off`: brightness 0 %, i.e. duty zero. */
  function BacklightOff(ch: Channel, setDutyOk: bool, updateDutyOk: bool): (r: SetResult)
    ensures r.IsOk() <==> setDutyOk && updateDutyOk
    ensures r.IsOk() ==> r.channel == Channel(0, 0)
    ensures !r.IsOk() ==> r.channel.output == ch.output
  {
    DutyCycleSamples();
    BrightnessSet(ch, 0, setDutyOk, updateDutyOk)
  }

  /** Switching on (off) is exactly a brightness request of 100 % (0 %), or of anything above (below) it. */
  lemma {:induction false} OnOffAreSaturatedRequests(ch: Channel, percent: int, setDutyOk: bool, updateDutyOk: bool)
    ensures percent >= 100 ==> BrightnessSet(ch, percent, setDutyOk, updateDutyOk) == BacklightOn(ch, setDutyOk, updateDutyOk)
    ensures percent <= 0 ==> BrightnessSet(ch, percent, setDutyOk, updateDutyOk) == BacklightOff(ch, setDutyOk, updateDutyOk)
  {
    BrightnessSetSaturates(ch, percent, setDutyOk, updateDutyOk);
  }
}
