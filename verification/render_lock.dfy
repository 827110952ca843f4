/**
 The recursive mutex that serialises calls into the (not thread-safe) LVGL
 library, seen from one task: how many times that task currently holds it.

 Whether another task holds the mutex is a parameter (`contended`). An infinite
 wait eventually obtains the mutex; a finite wait may time out. A task that
 already holds the mutex obtains it again at once. Giving the mutex back when the
 task does not hold it fails and changes nothing, as FreeRTOS's recursive give
 does for a caller that is not the holder.
 */
module RenderLock {

  /** How long a take may block: forever (`portMAX_DELAY`) or a finite number of milliseconds. */
  datatype Wait = Forever | Milliseconds(ms: int)

  /** `hmi_lvgl_lock`'s timeout conversion: -1 selects an infinite wait, any other value a finite one. */
  function WaitFor(timeoutMs: int): (w: Wait)
    ensures w.Forever? <==> timeoutMs == -1
    ensures w.Milliseconds? ==> w.ms == timeoutMs
  {
    if timeoutMs == -1 then Forever else Milliseconds(timeoutMs)
  }

  /** Result of a take: whether it succeeded, and the calling task's hold depth afterwards. */
  datatype Take = Take(granted: bool, depth: nat)

  /**
   `xSemaphoreTakeRecursive` by the calling task, which holds the mutex `depth`
   times. `contended` says whether another task holds it until the wait ends.
   */
  function Acquire(depth: nat, wait: Wait, contended: bool): (t: Take)
    ensures t.granted <==> depth > 0 || wait.Forever? || !contended
    ensures t.granted ==> t.depth == depth + 1
    ensures !t.granted ==> t.depth == depth == 0
  {
    if depth > 0 || wait.Forever? || !contended then Take(true, depth + 1)
    else Take(false, depth)
  }

  /**
   `hmi_lvgl_lock(timeout_ms)`: true iff the take succeeded, which it does when
   the timeout is -1, when the task already holds the mutex, or when no other
   task holds it.
   */
  function Lock(depth: nat, timeoutMs: int, contended: bool): (t: Take)
    ensures t.granted <==> timeoutMs == -1 || depth > 0 || !contended
    ensures t.granted ==> t.depth == depth + 1
    ensures !t.granted ==> t.depth == depth
    ensures timeoutMs == -1 ==> t.granted && t.depth == depth + 1
    ensures timeoutMs != -1 && depth == 0 && contended ==> !t.granted && t.depth == 0
  {
    Acquire(depth, WaitFor(timeoutMs), contended)
  }

  /** Result of a give: whether the task held the mutex, and its depth afterwards. */
  datatype Give = Give(released: bool, depth: nat)

  /** `hmi_lvgl_unlock`: one recursive give. */
  function Release(depth: nat): (g: Give)
    ensures g.released <==> depth > 0
    ensures g.released ==> g.depth + 1 == depth
    ensures !g.released ==> g.depth == depth
  {
    if depth > 0 then Give(true, depth - 1) else Give(false, depth)
  }

  /** A granted take followed by a give restores the depth the task started with. */
  lemma {:induction false} AcquireReleaseBalanced(depth: nat, wait: Wait, contended: bool)
    ensures var t := Acquire(depth, wait, contended);
            t.granted ==> Release(t.depth) == Give(true, depth)
  {
  }

  /** The mutex is reentrant: a holder's take never waits or fails, whatever the timeout. */
  lemma {:induction false} HolderTakesAgain(depth: nat, timeoutMs: int, contended: bool)
    requires depth > 0
    ensures Lock(depth, timeoutMs, contended).granted
  {
  }

  /** `n` nested takes need `n` gives before the task no longer holds the mutex. */
  function ReleaseTimes(depth: nat, n: nat): (d: nat)
    ensures n <= depth ==> d == depth - n
    ensures n > depth ==> d == 0
    decreases n
  {
    if n == 0 then depth else ReleaseTimes(Release(depth).depth, n - 1)
  }

  function AcquireTimes(depth: nat, n: nat, contended: bool): (d: nat)
    ensures d == depth + n
    decreases n
  {
    if n == 0 then depth else AcquireTimes(Lock(depth, -1, contended).depth, n - 1, contended)
  }

  /** After `n` infinite-wait takes, the mutex is held until exactly `n` gives have been made. */
  lemma {:induction false} NestedSectionsRelease(depth: nat, n: nat, contended: bool)
    ensures ReleaseTimes(AcquireTimes(depth, n, contended), n) == depth
    ensures n > 0 ==> ReleaseTimes(AcquireTimes(depth, n, contended), n - 1) == depth + 1
  {
  }

  /** What a bracketed critical section leaves behind: the depth on exit, and whether its body ran under the mutex. */
  datatype Section = Section(depth: nat, guarded: bool)

  /**
   A critical section bracketed by one take and one unconditional give, as the
   widget construction of the demo UI is (`lvgl_port_lock` belongs to
   esp_lvgl_port, so its wait is a parameter). If the take fails, the give is
   made by a non-holder and changes nothing.
   */
  function BracketedSection(depth: nat, wait: Wait, contended: bool): (s: Section)
    ensures s.depth == depth
    ensures s.guarded <==> Acquire(depth, wait, contended).granted
  {
    var t := Acquire(depth, wait, contended);
    var g := Release(t.depth);
    Section(g.depth, t.granted)
  }

  /**
   `app_main`'s final step: take with an infinite wait and, only if granted, run
   the demo UI and give back. The UI always runs under the mutex.
   */
  function AppMainSection(depth: nat, contended: bool): (s: Section)
    ensures s.depth == depth
    ensures s.guarded
  {
    var t := Lock(depth, -1, contended);
    if t.granted then Section(Release(t.depth).depth, true) else Section(t.depth, false)
  }
}
