/**
 The LVGL render task's self-pacing loop. Each iteration takes the render lock
 with an infinite wait, runs one LVGL timer-handler pump (whose suggested next
 delay is an arbitrary unsigned value here), gives the lock back, clamps the
 delay to [1, 500] ms and sleeps for it. If the lock were not obtained, the delay
 carried over from the previous iteration is clamped and used instead.
 */
module RenderTask {
  import RenderLock

  /** HMI_LVGL_TASK_MIN_DELAY_MS. */
  const MinDelayMs: nat := 1

  /** HMI_LVGL_TASK_MAX_DELAY_MS. */
  const MaxDelayMs: nat := 500

  /** Timeout passed to the lock by the render task: wait forever. */
  const TaskLockTimeoutMs: int := -1

  predicate InDelayRange(d: int)
  {
    MinDelayMs <= d <= MaxDelayMs
  }

  /** The two range checks after the pump: too long becomes MAX, too short becomes MIN. */
  function ClampDelay(d: nat): (r: nat)
    ensures InDelayRange(r)
    ensures InDelayRange(d) ==> r == d
    ensures d > MaxDelayMs ==> r == MaxDelayMs
    ensures d < MinDelayMs ==> r == MinDelayMs
  {
    if d > MaxDelayMs then MaxDelayMs
    else if d < MinDelayMs then MinDelayMs
    else d
  }

  /** Clamping is idempotent: a delay already clamped is not changed again. */
  lemma {:induction false} ClampDelayIdempotent(d: nat)
    ensures ClampDelay(ClampDelay(d)) == ClampDelay(d)
  {
  }

  /** A longer suggestion never gives a shorter sleep. */
  lemma {:induction false} ClampDelayMonotone(a: nat, b: nat)
    requires a <= b
    ensures ClampDelay(a) <= ClampDelay(b)
  {
  }

  /** The task's state between iterations: its hold depth on the lock and the carried delay `task_delay_ms`. */
  datatype TaskState = TaskState(depth: nat, delayMs: nat)

  /** At task start the lock is not held and the delay is MAX. */
  const Start: TaskState := TaskState(0, MaxDelayMs)

  /**
   One iteration of the loop body with the lock taken under timeout
   `timeoutMs`: if the take succeeds the pump's suggestion replaces the carried
   delay and the lock is given back; either way the delay is clamped, and the
   task sleeps for it. The render task itself always passes -1.
   */
  function StepWithTimeout(s: TaskState, timeoutMs: int, contended: bool, pump: nat): (s': TaskState)
    ensures InDelayRange(s'.delayMs)
    ensures s'.depth == s.depth
    ensures RenderLock.Lock(s.depth, timeoutMs, contended).granted ==> s'.delayMs == ClampDelay(pump)
    ensures !RenderLock.Lock(s.depth, timeoutMs, contended).granted ==> s'.delayMs == ClampDelay(s.delayMs)
  {
    var t := RenderLock.Lock(s.depth, timeoutMs, contended);
    var delay := if t.granted then pump else s.delayMs;
    var depth := if t.granted then RenderLock.Release(t.depth).depth else t.depth;
    TaskState(depth, ClampDelay(delay))
  }

  /** One iteration of the render task's loop; `contended` says whether application code holds the lock meanwhile. */
  function Iteration(s: TaskState, contended: bool, pump: nat): (s': TaskState)
    ensures s'.depth == s.depth
    ensures s'.delayMs == ClampDelay(pump)
    ensures InDelayRange(s'.delayMs)
    ensures InDelayRange(pump) ==> s'.delayMs == pump
  {
    StepWithTimeout(s, TaskLockTimeoutMs, contended, pump)
  }

  /**
   A failed take (a finite wait that times out) reuses the previous delay, so
   from the task's start it would sleep MAX, and the pump's suggestion is ignored.
   */
  lemma {:induction false} FailedTakeReusesDelay(s: TaskState, timeoutMs: int, pump: nat)
    requires s.depth == 0 && timeoutMs != -1 && InDelayRange(s.delayMs)
    ensures StepWithTimeout(s, timeoutMs, true, pump) == s
    ensures StepWithTimeout(Start, timeoutMs, true, pump) == Start
  {
  }

  /** The render task takes the lock with an infinite wait, so its take is always granted, contended or not. */
  lemma {:induction false} TaskTakeAlwaysGranted(s: TaskState, contended: bool)
    ensures RenderLock.Lock(s.depth, TaskLockTimeoutMs, contended).granted
  {
  }

  /**
   Runs the loop over a finite prefix of pump results and returns the sleeps
   it chose and the final state. `contended(i)` says whether the lock is held
   elsewhere while iteration `i` waits for it.
   */
  method RenderLoop(pumps: seq<nat>, contended: nat -> bool) returns (sleeps: seq<nat>, final: TaskState)
    ensures |sleeps| == |pumps|
    ensures forall i :: 0 <= i < |pumps| ==> sleeps[i] == ClampDelay(pumps[i])
    ensures forall i :: 0 <= i < |sleeps| ==> InDelayRange(sleeps[i])
    ensures final.depth == Start.depth
    ensures |pumps| == 0 ==> final == Start
    ensures |pumps| > 0 ==> final.delayMs == sleeps[|sleeps| - 1]
  {
    var s := Start;
    sleeps := [];
    var i := 0;
    while i < |pumps|
      invariant 0 <= i <= |pumps|
      invariant |sleeps| == i
      invariant forall j :: 0 <= j < i ==> sleeps[j] == ClampDelay(pumps[j])
      invariant s.depth == Start.depth
      invariant i == 0 ==> s == Start
      invariant i > 0 ==> s.delayMs == sleeps[i - 1]
    {
      s := Iteration(s, contended(i), pumps[i]);
      sleeps := sleeps + [s.delayMs];
      i := i + 1;
    }
    final := s;
  }
}
