/**
 * Whole-hook runs on a fresh controller, each ending in concrete values
 * that follow from the contracts of the operations alone.
 */
module Scenarios {
  import opened Wrappers
  import opened AudioRecording

  /** An arbitrary start instant, in milliseconds; it is truthy. */
  const T0: int := 1_000_000

  /**
   * Recording for 5 s, pausing for 5 s and recording for 10 s more: the
   * countdown then shows 15, not 20.
   */
  method PauseResumeExcludesPause() returns (shown: int)
    ensures shown == 15
  {
    var rec := new Recorder(4, x => x);
    var started := rec.Start(T0, NoStartFault);
    var paused := rec.Pause(T0 + 5000, true);
    var resumed := rec.Resume(T0 + 10000, true);
    rec.CountdownTick(T0 + 20000);
    shown := rec.timer;
  }

  /**
   * The device progress reaches the limit and the app comes back to the
   * foreground after 61 s, before the stop has finished: the foreground
   * check begins no second stop.
   */
  method AutoStopBeginsOnce() returns (first: bool, second: bool)
    ensures first && !second
  {
    var rec := new Recorder(4, x => x);
    var started := rec.Start(T0, NoStartFault);
    first := rec.ProgressUpdate(60000);
    second := rec.Foreground(Active, T0 + 61000);
  }

  /**
   * A stop begun by the device progress and finished with a saved file
   * calls the completion callback once, for the stopped recording.
   */
  method AutoStopCompletesOnce() returns (completed: seq<Completion>)
    ensures completed == [Completion(0, "file:///a.m4a")]
  {
    var rec := new Recorder(4, x => x);
    var started := rec.Start(T0, NoStartFault);
    var began := rec.ProgressUpdate(60000);
    var r := rec.StopFinish(Some("file:///a.m4a"), false, NoFinishFault);
    completed := rec.completions;
  }

  /**
   * A discard whose notification dismissal rejects: a stop arriving while
   * it is in flight does nothing, no completion is called and no error
   * escapes.
   */
  method DiscardNeverCompletes() returns (stopped: bool, r: Outcome, completed: nat)
    ensures !stopped && r == Ok && completed == 0
  {
    var rec := new Recorder(4, x => x);
    var started := rec.Start(T0, NoStartFault);
    var began := rec.DiscardBegin();
    stopped := rec.StopBegin();
    r := rec.DiscardFinish(false, DismissThrows);
    completed := |rec.completions|;
  }

  /**
   * After 90.5 s in the background the countdown would show 60, but the
   * foreground handler shows 90, unclamped, and begins the stop.
   */
  method ForegroundDoesNotClamp() returns (ticked: int, shown: int, stopping: bool)
    ensures ticked == 60 && shown == 90 && stopping
  {
    var rec := new Recorder(4, x => x);
    var started := rec.Start(T0, NoStartFault);
    rec.CountdownTick(T0 + 90500);
    ticked := rec.timer;
    stopping := rec.Foreground(Active, T0 + 90500);
    shown := rec.timer;
  }

  /**
   * Recording for 10 s, then paused; the app comes back to the foreground
   * 65 s later.  The handler measures from the unshifted start, so the
   * paused time counts: it shows 75 and begins the stop.
   */
  method ForegroundCountsPausedTime() returns (shown: int, stopping: bool)
    ensures shown == 75 && stopping
  {
    var rec := new Recorder(4, x => x);
    var started := rec.Start(T0, NoStartFault);
    var paused := rec.Pause(T0 + 10000, true);
    stopping := rec.Foreground(Active, T0 + 75000);
    shown := rec.timer;
  }

  /**
   * A start while a stop is suspended makes a new recording live; a second
   * stop is then refused by the guard alone, the recording cell being set.
   */
  method GuardRefusesWithLiveRecording() returns (first: bool, live: bool, second: bool)
    ensures first && live && !second
  {
    var rec := new Recorder(4, x => x);
    var started := rec.Start(T0, NoStartFault);
    first := rec.StopBegin();
    var restarted := rec.Start(T0 + 1000, NoStartFault);
    live := rec.recording.Some?;
    second := rec.StopBegin();
  }
}
