/**
 * Clock arithmetic of the recording hook.  Instants are integer
 * milliseconds (what `Date.now()` returns), passed in by the caller.
 */
module Clock {
  import opened Wrappers

  /** The hard cap shown by the countdown, in seconds. */
  const CapSeconds: int := 60

  /** JavaScript truthiness of a `number | null` ref: null and 0 are both false. */
  predicate Truthy(t: Option<int>)
  {
    t.Some? && t.value != 0
  }

  /**
   * `Math.floor((now - start) / 1000)`.  Dafny's `/` is Euclidean, which for
   * the positive divisor 1000 is floor division, as `Math.floor` needs.
   */
  function ElapsedSeconds(now: int, start: int): (r: int)
    ensures r * 1000 <= now - start < r * 1000 + 1000
  {
    (now - start) / 1000
  }

  /** `elapsed > 60 ? 60 : elapsed`: the countdown's clamp. */
  function CountdownValue(elapsed: int): (r: int)
    ensures r <= CapSeconds && r <= elapsed
    ensures r == CapSeconds || r == elapsed
  {
    if elapsed > CapSeconds then CapSeconds else elapsed
  }

  /** One pause/resume cycle: the instants of the pause and of the resume. */
  datatype PauseSpan = PauseSpan(pausedAt: int, resumedAt: int)

  /** The total length of the paused intervals. */
  function TotalPaused(spans: seq<PauseSpan>): int
  {
    if spans == [] then 0
    else (spans[0].resumedAt - spans[0].pausedAt) + TotalPaused(spans[1..])
  }

  /** Recording one more cycle adds its length to the total. */
  lemma {:induction false} TotalPausedAppend(spans: seq<PauseSpan>, span: PauseSpan)
    ensures TotalPaused(spans + [span]) == TotalPaused(spans) + (span.resumedAt - span.pausedAt)
  {
    if spans == [] {
      assert [] + [span] == [span];
    } else {
      assert (spans + [span])[1..] == spans[1..] + [span];
      TotalPausedAppend(spans[1..], span);
    }
  }

  /**
   * Reference definition of recorded time: the sum of the running segments
   * (start to first pause, each resume to the next pause, last resume to now).
   */
  function ActiveTime(start: int, spans: seq<PauseSpan>, now: int): int
    decreases |spans|
  {
    if spans == [] then now - start
    else (spans[0].pausedAt - start) + ActiveTime(spans[0].resumedAt, spans[1..], now)
  }

  /**
   * Shifting the start instant forward by every paused interval makes
   * `now - start` the recorded time: paused time is excluded, whatever the
   * number of cycles.
   */
  lemma {:induction false} ShiftedStartExcludesPauses(start: int, spans: seq<PauseSpan>, now: int)
    ensures now - (start + TotalPaused(spans)) == ActiveTime(start, spans, now)
    decreases |spans|
  {
    if spans != [] {
      ShiftedStartExcludesPauses(spans[0].resumedAt, spans[1..], now);
    }
  }
}
