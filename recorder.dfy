/**
 * The recording lifecycle controller of `useAudioRecording`: one object
 * whose fields are the hook's state cells (`recording`, `levels`, `timer`,
 * `isPaused`) and refs (`startTimeRef`, `pauseTimeRef`, `countdownRef`,
 * `meteringIntervalRef`, `isStoppingRef`), with one method per operation
 * and per callback.
 *
 * Time is a parameter (`now`, in milliseconds).  Timers are explicit tick
 * methods.  What the expo-av device, the audio-mode call, the completion
 * callback and the notification collaborators answer is a parameter; what
 * the controller asks of them is recorded in effect logs (`unloads`,
 * `completions`, `modeChanges`, `notifications`, `dismissals`).
 *
 * `stopRecording` and `discardRecording` run up to their first `await` in
 * `StopBegin` / `DiscardBegin` and do the rest, `finally` included, in
 * `StopFinish` / `DiscardFinish`; `inFlight` holds the suspended call.
 */
module AudioRecording {
  import opened Wrappers
  import opened Metering
  import opened Clock

  /** Device progress at or past this many milliseconds stops the recording. */
  const AutoStopMillis: int := 60000

  /** The failures a call rejects with. */
  datatype Failure =
    | AudioModeRejected   // Audio.setAudioModeAsync rejected
    | DeviceUnavailable   // Audio.Recording.createAsync rejected
    | NotificationFailed  // setupNotification rejected
    | PauseFailed         // recording.pauseAsync rejected
    | ResumeFailed        // recording.startAsync rejected
    | CompletionFailed    // onRecordingComplete rejected
    | DismissFailed       // dismissNotification rejected

  datatype Outcome = Ok | Err(failure: Failure)

  /** Which collaborator `startRecording` finds rejecting, if any. */
  datatype StartFault = NoStartFault | AudioModeFails | CreateFails | NotifyFails

  /** Which collaborator the tail of stop/discard finds rejecting, if any. */
  datatype FinishFault = NoFinishFault | CompletionThrows | AudioModeThrows | DismissThrows

  /** The two operations that release the recording. */
  datatype Op = StopOp | DiscardOp

  /** A stop or discard suspended at its first `await`, holding `recordingInstance`. */
  datatype InFlight = InFlight(op: Op, instance: nat)

  /** One call of `onRecordingComplete(uri)` for the recording with this id. */
  datatype Completion = Completion(recordingId: nat, uri: string)

  /** The AppState values the foreground listener distinguishes. */
  datatype AppStatus = Active | Background | Inactive

  /** `if (uri)`: `getURI()` gives `string | null`, and the empty string is false too. */
  predicate UriTruthy(uri: Option<string>)
  {
    uri.Some? && uri.value != ""
  }

  /** The waveform buffer is capped at `maxBars` and floored. */
  ghost predicate BufferOk(levels: seq<real>, maxBars: int)
  {
    2 <= maxBars &&
    |levels| <= maxBars &&
    (forall i :: 0 <= i < |levels| ==> levels[i] >= AmplitudeFloor)
  }

  /**
   * A metering append keeps the buffer capped and floored: a floored
   * sample joins a floored buffer and at most `maxBars` are kept.
   */
  lemma BufferAfterPush(levels: seq<real>, amplitude: real, maxBars: int)
    requires BufferOk(levels, maxBars) && amplitude >= AmplitudeFloor
    ensures BufferOk(Push(levels, amplitude, maxBars), maxBars)
  {
    var r := Push(levels, amplitude, maxBars);
    forall i | 0 <= i < |r| ensures r[i] >= AmplitudeFloor {
      if i < |r| - 1 {
        assert r[i] == r[..|r| - 1][i];
        assert r[i] == levels[|levels| - (|r| - 1) + i];
      }
    }
  }

  /** The stop guard is set exactly while a stop or discard is suspended. */
  ghost predicate GuardOk(isStopping: bool, inFlight: Option<InFlight>)
  {
    isStopping <==> inFlight.Some?
  }

  /** The start instant is the real one shifted by every excluded pause. */
  ghost predicate ClockOk(startTime: Option<int>, startedAt: int, pauses: seq<PauseSpan>)
  {
    startTime.Some? ==> startTime.value == startedAt + TotalPaused(pauses)
  }

  /**
   * The bookkeeping of recordings.  `released` maps every unloaded
   * recording to the operation that released it and `completedIds` holds
   * the recordings whose completion callback was called.  Every recording
   * is unloaded at most once and completed at most once, only after a stop
   * released it, never after a discard; a suspended release holds a
   * recording it released and has not completed yet.
   */
  ghost predicate RecordLog(recording: Option<nat>, nextRecording: nat, unloads: seq<nat>,
                            completions: seq<Completion>, inFlight: Option<InFlight>,
                            released: map<nat, Op>, completedIds: set<nat>)
  {
    (recording.Some? ==> recording.value < nextRecording && recording.value !in released) &&
    (forall id :: id in released ==> id < nextRecording) &&
    (forall i :: 0 <= i < |unloads| ==> unloads[i] in released) &&
    (forall i, j :: 0 <= i < j < |unloads| ==> unloads[i] != unloads[j]) &&
    (forall id :: id in completedIds ==> id in released && released[id] == StopOp) &&
    (forall i :: 0 <= i < |completions| ==> completions[i].recordingId in completedIds) &&
    (forall i, j :: 0 <= i < j < |completions| ==>
       completions[i].recordingId != completions[j].recordingId) &&
    (inFlight.Some? ==>
       inFlight.value.instance in released && released[inFlight.value.instance] == inFlight.value.op &&
       inFlight.value.instance !in completedIds)
  }

  /** A new recording gets a fresh id, which nothing has unloaded or completed. */
  lemma LogAfterStart(recording: Option<nat>, nextRecording: nat, unloads: seq<nat>,
                      completions: seq<Completion>, inFlight: Option<InFlight>,
                      released: map<nat, Op>, completedIds: set<nat>)
    requires RecordLog(recording, nextRecording, unloads, completions, inFlight, released, completedIds)
    ensures RecordLog(Some(nextRecording), nextRecording + 1, unloads, completions, inFlight,
                      released, completedIds)
  {
  }

  /**
   * Releasing the live recording (no release in flight) unloads it for the
   * first time and leaves it suspended, not completed.
   */
  lemma LogAfterRelease(live: nat, nextRecording: nat, unloads: seq<nat>,
                        completions: seq<Completion>, released: map<nat, Op>,
                        completedIds: set<nat>, op: Op)
    requires RecordLog(Some(live), nextRecording, unloads, completions, None, released, completedIds)
    ensures RecordLog(None, nextRecording, unloads + [live], completions, Some(InFlight(op, live)),
                      released[live := op], completedIds)
  {
    var u := unloads + [live];
    forall i, j | 0 <= i < j < |u| ensures u[i] != u[j] {
      if j == |unloads| {
        assert u[i] == unloads[i];
      }
    }
    forall i | 0 <= i < |u| ensures u[i] in released[live := op] {
      if i < |unloads| {
        assert u[i] == unloads[i];
      }
    }
  }

  /**
   * Completing the suspended stop's recording keeps each recording
   * completed at most once and never a discarded one; so does ending the
   * stop without completing.
   */
  lemma LogAfterStopFinish(recording: Option<nat>, nextRecording: nat, unloads: seq<nat>,
                           completions: seq<Completion>, released: map<nat, Op>,
                           completedIds: set<nat>, instance: nat, uri: string)
    requires RecordLog(recording, nextRecording, unloads, completions,
                       Some(InFlight(StopOp, instance)), released, completedIds)
    ensures RecordLog(recording, nextRecording, unloads, completions + [Completion(instance, uri)],
                      None, released, completedIds + {instance})
    ensures RecordLog(recording, nextRecording, unloads, completions, None, released, completedIds)
  {
    var c := completions + [Completion(instance, uri)];
    forall i, j | 0 <= i < j < |c| ensures c[i].recordingId != c[j].recordingId {
      if j == |completions| {
        assert c[i] == completions[i];
      }
    }
    forall i | 0 <= i < |c| ensures c[i].recordingId in completedIds + {instance} {
      if i < |completions| {
        assert c[i] == completions[i];
      }
    }
  }

  /** Ending a suspended discard keeps the record log: it completes nothing. */
  lemma LogAfterDiscardFinish(recording: Option<nat>, nextRecording: nat, unloads: seq<nat>,
                              completions: seq<Completion>, released: map<nat, Op>,
                              completedIds: set<nat>, instance: nat)
    requires RecordLog(recording, nextRecording, unloads, completions,
                       Some(InFlight(DiscardOp, instance)), released, completedIds)
    ensures RecordLog(recording, nextRecording, unloads, completions, None, released, completedIds)
    ensures instance in released && released[instance] == DiscardOp && instance !in completedIds
  {
  }

  /**
   * Under the record log no completion callback was ever called for a
   * recording that a discard released.
   */
  lemma DiscardedNeverCompleted(recording: Option<nat>, nextRecording: nat, unloads: seq<nat>,
                                completions: seq<Completion>, inFlight: Option<InFlight>,
                                released: map<nat, Op>, completedIds: set<nat>, id: nat)
    requires RecordLog(recording, nextRecording, unloads, completions, inFlight, released, completedIds)
    requires id in released && released[id] == DiscardOp
    ensures forall i :: 0 <= i < |completions| ==> completions[i].recordingId != id
  {
  }

  class Recorder {
    /** `MAX_BARS`, the waveform width. */
    const maxBars: int
    /** The decibel-to-linear formula of the metering callback. */
    const toLinear: real -> real

    // State cells and refs of the hook.  Recordings and intervals are
    // identified by the number under which they were created.
    var recording: Option<nat>
    var levels: seq<real>
    var timer: int
    var isPaused: bool
    var startTime: Option<int>
    var pauseTime: int
    var countdown: Option<nat>
    var metering: Option<nat>
    var isStopping: bool
    var inFlight: Option<InFlight>

    // The collaborators: fresh handles, and what was asked of them.
    var nextRecording: nat
    var nextTimer: nat
    var unloads: seq<nat>            // stopAndUnloadAsync, per recording id
    var completions: seq<Completion> // onRecordingComplete
    var modeChanges: seq<bool>       // setAudioModeAsync, its allowsRecordingIOS
    var notifications: nat           // setupNotification
    var dismissals: nat              // dismissNotification

    /** Intervals whose handle was overwritten while still armed. */
    ghost var leakedTimers: nat
    /** Every unloaded recording, with the operation that released it. */
    ghost var released: map<nat, Op>
    /** The recordings whose completion callback was called. */
    ghost var completedIds: set<nat>
    /** The instant of the last successful start, and the pauses excluded since. */
    ghost var startedAt: int
    ghost var pauses: seq<PauseSpan>

    /** What holds between any two callbacks. */
    ghost predicate Valid()
      reads this`levels, this`isStopping, this`inFlight, this`startTime, this`startedAt,
            this`pauses, this`recording, this`nextRecording, this`unloads, this`completions,
            this`released, this`completedIds
    {
      BufferOk(levels, maxBars) && GuardOk(isStopping, inFlight) &&
      ClockOk(startTime, startedAt, pauses) &&
      RecordLog(recording, nextRecording, unloads, completions, inFlight, released, completedIds)
    }

    /**
     * The state the synchronous part of stop/discard leaves: metering,
     * countdown and clock reset, the recording cell cleared, its unload
     * issued, and the guard taken on behalf of `op`.
     */
    twostate predicate ReleasedAs(op: Op)
      reads this
    {
      old(recording).Some? &&
      recording.None? && levels == [] && metering.None? && countdown.None? &&
      startTime.None? && pauseTime == 0 && !isPaused &&
      isStopping && inFlight == Some(InFlight(op, old(recording).value)) &&
      unloads == old(unloads) + [old(recording).value] &&
      released == old(released)[old(recording).value := op] &&
      completedIds == old(completedIds)
    }

    /** None of the fields the release touches has changed. */
    twostate predicate NotReleased()
      reads this
    {
      recording == old(recording) && levels == old(levels) && metering == old(metering) &&
      countdown == old(countdown) && startTime == old(startTime) &&
      pauseTime == old(pauseTime) && isPaused == old(isPaused) &&
      isStopping == old(isStopping) && inFlight == old(inFlight) &&
      unloads == old(unloads) && released == old(released)
    }

    /** The hook's initial render. */
    constructor (maxBars: int, toLinear: real -> real)
      requires maxBars >= 2
      ensures Valid() && this.maxBars == maxBars && this.toLinear == toLinear
      ensures recording.None? && levels == [] && timer == 0 && !isPaused
      ensures startTime.None? && pauseTime == 0 && countdown.None? && metering.None?
      ensures !isStopping && inFlight.None?
      ensures unloads == [] && completions == [] && modeChanges == []
      ensures notifications == 0 && dismissals == 0 && nextRecording == 0 && nextTimer == 0
    {
      this.maxBars := maxBars;
      this.toLinear := toLinear;
      recording := None;
      levels := [];
      timer := 0;
      isPaused := false;
      startTime := None;
      pauseTime := 0;
      countdown := None;
      metering := None;
      isStopping := false;
      inFlight := None;
      nextRecording := 0;
      nextTimer := 0;
      unloads := [];
      completions := [];
      modeChanges := [];
      notifications := 0;
      dismissals := 0;
      leakedTimers := 0;
      released := map[];
      completedIds := {};
      startedAt := 0;
      pauses := [];
    }

    /**
     * `startRecording`: enable the recording audio mode, then go on as
     * `StartCreate`.  A rejection stops the sequence where it happens and
     * is rethrown.  There is no guard: a start while a recording is live
     * replaces it and overwrites the interval handles without clearing
     * them, and `isPaused` is left as it is.
     */
    method Start(now: int, fault: StartFault) returns (r: Outcome)
      requires Valid()
      modifies this`modeChanges, this`recording, this`nextRecording, this`startTime,
               this`timer, this`countdown, this`metering, this`nextTimer,
               this`notifications, this`leakedTimers, this`startedAt, this`pauses
      ensures Valid()
      ensures modeChanges == old(modeChanges) + [true]
      ensures fault == AudioModeFails ==>
                r == Err(AudioModeRejected) &&
                unchanged(this`recording, this`nextRecording, this`startTime, this`timer,
                          this`countdown, this`metering, this`nextTimer, this`notifications,
                          this`startedAt, this`pauses, this`leakedTimers)
      ensures fault != AudioModeFails ==> Created(now, fault, r)
    {
      SetAudioMode(true);
      if fault == AudioModeFails {
        return Err(AudioModeRejected);
      }
      r := StartCreate(now, fault);
    }

    /**
     * What `startRecording` does once the audio mode is set: unless
     * `createAsync` rejects, a fresh recording is live, the clock restarts
     * at `now` with no excluded pause, the timer shows 0, a fresh countdown
     * is armed and the notification is requested; unless that rejects, a
     * fresh metering interval is armed as well.
     */
    twostate predicate Created(now: int, fault: StartFault, r: Outcome)
      reads this
    {
      if fault == CreateFails then
        r == Err(DeviceUnavailable) &&
        recording == old(recording) && nextRecording == old(nextRecording) &&
        startTime == old(startTime) && timer == old(timer) && countdown == old(countdown) &&
        metering == old(metering) && nextTimer == old(nextTimer) &&
        notifications == old(notifications) && startedAt == old(startedAt) &&
        pauses == old(pauses) && leakedTimers == old(leakedTimers)
      else
        recording == Some(old(nextRecording)) && nextRecording == old(nextRecording) + 1 &&
        startTime == Some(now) && timer == 0 && startedAt == now && pauses == [] &&
        countdown == Some(old(nextTimer)) && notifications == old(notifications) + 1 &&
        if fault == NotifyFails then
          r == Err(NotificationFailed) && metering == old(metering) &&
          nextTimer == old(nextTimer) + 1 &&
          leakedTimers == old(leakedTimers) + (if old(countdown).Some? then 1 else 0)
        else
          r == Ok && metering == Some(old(nextTimer) + 1) && nextTimer == old(nextTimer) + 2 &&
          leakedTimers == old(leakedTimers) + (if old(countdown).Some? then 1 else 0)
                                            + (if old(metering).Some? then 1 else 0)
    }

    /**
     * `startRecording` from `createAsync` on: the new recording and clock,
     * the countdown, then `StartNotify`.
     */
    method StartCreate(now: int, fault: StartFault) returns (r: Outcome)
      requires Valid()
      modifies this`recording, this`nextRecording, this`startTime, this`timer,
               this`countdown, this`metering, this`nextTimer, this`notifications,
               this`leakedTimers, this`startedAt, this`pauses
      ensures Valid()
      ensures Created(now, fault, r)
    {
      if fault == CreateFails {
        return Err(DeviceUnavailable);
      }
      OpenSession(now);
      r := StartNotify(fault == NotifyFails);
    }

    /** `startRecording` from `setupNotification` on: then the metering. */
    method StartNotify(rejected: bool) returns (r: Outcome)
      requires Valid()
      modifies this`notifications, this`metering, this`nextTimer, this`leakedTimers
      ensures Valid()
      ensures notifications == old(notifications) + 1
      ensures rejected ==>
                r == Err(NotificationFailed) && unchanged(this`metering, this`nextTimer, this`leakedTimers)
      ensures !rejected ==>
                r == Ok && metering == Some(old(nextTimer)) && nextTimer == old(nextTimer) + 1 &&
                leakedTimers == old(leakedTimers) + (if old(metering).Some? then 1 else 0)
    {
      SetupNotification();
      if rejected {
        return Err(NotificationFailed);
      }
      StartMetering();
      r := Ok;
    }

    /** `setAudioModeAsync`, with the requested `allowsRecordingIOS`. */
    method SetAudioMode(allowsRecording: bool)
      modifies this`modeChanges
      ensures modeChanges == old(modeChanges) + [allowsRecording]
    {
      modeChanges := modeChanges + [allowsRecording];
    }

    /** `setupNotification`. */
    method SetupNotification()
      modifies this`notifications
      ensures notifications == old(notifications) + 1
    {
      notifications := notifications + 1;
    }

    /** `dismissNotification`. */
    method DismissNotification()
      modifies this`dismissals
      ensures dismissals == old(dismissals) + 1
    {
      dismissals := dismissals + 1;
    }

    /**
     * The synchronous part of a start: the new recording, the clock from
     * `now`, and a fresh countdown interval over the old handle.
     */
    method OpenSession(now: int)
      requires Valid()
      modifies this`recording, this`nextRecording, this`startTime, this`timer,
               this`startedAt, this`pauses, this`countdown, this`nextTimer, this`leakedTimers
      ensures Valid()
      ensures recording == Some(old(nextRecording)) && nextRecording == old(nextRecording) + 1
      ensures startTime == Some(now) && timer == 0 && startedAt == now && pauses == []
      ensures countdown == Some(old(nextTimer)) && nextTimer == old(nextTimer) + 1
      ensures leakedTimers == old(leakedTimers) + (if old(countdown).Some? then 1 else 0)
    {
      LogAfterStart(recording, nextRecording, unloads, completions, inFlight, released, completedIds);
      recording := Some(nextRecording);
      nextRecording := nextRecording + 1;
      startTime := Some(now);
      startedAt := now;
      pauses := [];
      timer := 0;
      ArmCountdown();
    }

    /** Arm the 1 s countdown interval, overwriting the handle. */
    method ArmCountdown()
      requires Valid()
      modifies this`countdown, this`nextTimer, this`leakedTimers
      ensures Valid()
      ensures countdown == Some(old(nextTimer)) && nextTimer == old(nextTimer) + 1
      ensures leakedTimers == old(leakedTimers) + (if old(countdown).Some? then 1 else 0)
    {
      if countdown.Some? {
        leakedTimers := leakedTimers + 1;
      }
      countdown := Some(nextTimer);
      nextTimer := nextTimer + 1;
    }

    /** `startMetering`: arm the 100 ms metering interval, overwriting the handle. */
    method StartMetering()
      requires Valid()
      modifies this`metering, this`nextTimer, this`leakedTimers
      ensures Valid()
      ensures metering == Some(old(nextTimer)) && nextTimer == old(nextTimer) + 1
      ensures leakedTimers == old(leakedTimers) + (if old(metering).Some? then 1 else 0)
    {
      if metering.Some? {
        leakedTimers := leakedTimers + 1;
      }
      metering := Some(nextTimer);
      nextTimer := nextTimer + 1;
    }

    /** `stopMetering`: clear the metering interval if armed and empty the waveform. */
    method StopMetering()
      requires Valid()
      modifies this`metering, this`levels
      ensures Valid()
      ensures metering.None? && levels == []
    {
      if metering.Some? {
        metering := None;
      }
      levels := [];
    }

    /** Clear the countdown interval if armed. */
    method ClearCountdown()
      requires Valid()
      modifies this`countdown
      ensures Valid()
      ensures countdown.None?
    {
      if countdown.Some? {
        countdown := None;
      }
    }

    /**
     * One firing of the metering interval.  Only an armed interval fires.
     * A reading that is not recording or has no numeric metering is
     * skipped; otherwise its amplitude is appended and the oldest sample
     * evicted once the buffer is full.
     */
    method MeteringTick(status: MeterStatus)
      requires Valid()
      modifies this`levels
      ensures Valid()
      ensures levels == if metering.Some? && Sample(status, toLinear).Some?
                        then Push(old(levels), Sample(status, toLinear).value, maxBars)
                        else old(levels)
    {
      if metering.Some? {
        var sample := Sample(status, toLinear);
        if sample.Some? {
          BufferAfterPush(levels, sample.value, maxBars);
          levels := Push(levels, sample.value, maxBars);
        }
      }
    }

    /**
     * One firing of the 1 s countdown.  When the start instant is set it
     * shows the elapsed whole seconds, clamped to 60; that value counts the
     * running segments only, every paused interval excluded.  The countdown
     * itself never stops the recording.
     */
    method CountdownTick(now: int)
      requires Valid()
      modifies this`timer
      ensures Valid()
      ensures countdown.Some? && Truthy(startTime) ==>
                timer == CountdownValue(ElapsedSeconds(now, startTime.value)) &&
                timer == CountdownValue(ActiveTime(startedAt, pauses, now) / 1000)
      ensures !(countdown.Some? && Truthy(startTime)) ==> timer == old(timer)
    {
      if countdown.Some? && Truthy(startTime) {
        timer := CountdownValue(ElapsedSeconds(now, startTime.value));
        ShiftedStartExcludesPauses(startedAt, pauses, now);
      }
    }

    /**
     * `pauseRecording`: a no-op without a recording or when already paused;
     * otherwise, once the device accepts, mark paused, clear both intervals
     * and note the pause instant.  The waveform is kept.
     */
    method Pause(now: int, deviceOk: bool) returns (r: Outcome)
      requires Valid()
      modifies this`isPaused, this`metering, this`countdown, this`pauseTime
      ensures Valid()
      ensures old(recording).None? || old(isPaused) ==> r == Ok && unchanged(this)
      ensures old(recording).Some? && !old(isPaused) && !deviceOk ==>
                r == Err(PauseFailed) && unchanged(this)
      ensures old(recording).Some? && !old(isPaused) && deviceOk ==>
                r == Ok && isPaused && metering.None? && countdown.None? && pauseTime == now
    {
      if recording.None? || isPaused {
        return Ok;
      }
      if !deviceOk {
        return Err(PauseFailed);
      }
      isPaused := true;
      if metering.Some? {
        metering := None;
      }
      if countdown.Some? {
        countdown := None;
      }
      pauseTime := now;
      r := Ok;
    }

    /**
     * `resumeRecording`: a no-op unless a recording exists and is paused;
     * otherwise, once the device accepts, clear the paused flag, shift the
     * start instant forward by the paused interval (when both instants are
     * set), and re-arm the countdown and the metering.
     */
    method Resume(now: int, deviceOk: bool) returns (r: Outcome)
      requires Valid()
      modifies this`isPaused, this`startTime, this`pauseTime, this`countdown, this`metering,
               this`nextTimer, this`leakedTimers, this`pauses
      ensures Valid()
      ensures old(recording).None? || !old(isPaused) ==> r == Ok && unchanged(this)
      ensures old(recording).Some? && old(isPaused) && !deviceOk ==>
                r == Err(ResumeFailed) && unchanged(this)
      ensures old(recording).Some? && old(isPaused) && deviceOk ==>
                r == Ok && !isPaused &&
                countdown == Some(old(nextTimer)) && metering == Some(old(nextTimer) + 1) &&
                nextTimer == old(nextTimer) + 2 &&
                leakedTimers == old(leakedTimers) + (if old(countdown).Some? then 1 else 0)
                                                  + (if old(metering).Some? then 1 else 0) &&
                ShiftedBy(now)
    {
      if recording.None? || !isPaused {
        return Ok;
      }
      if !deviceOk {
        return Err(ResumeFailed);
      }
      isPaused := false;
      ShiftClock(now);
      Rearm();
      r := Ok;
    }

    /** The countdown and then the metering re-armed by a resume. */
    method Rearm()
      requires Valid()
      modifies this`countdown, this`metering, this`nextTimer, this`leakedTimers
      ensures Valid()
      ensures countdown == Some(old(nextTimer)) && metering == Some(old(nextTimer) + 1)
      ensures nextTimer == old(nextTimer) + 2
      ensures leakedTimers == old(leakedTimers) + (if old(countdown).Some? then 1 else 0)
                                                + (if old(metering).Some? then 1 else 0)
    {
      ArmCountdown();
      StartMetering();
    }

    /**
     * The clock after a resume at `now`: when both the start and the pause
     * instant are set, the start moves forward by the paused interval, the
     * pause instant is cleared and the interval joins the excluded pauses;
     * otherwise nothing moves.
     */
    twostate predicate ShiftedBy(now: int)
      reads this
    {
      if Truthy(old(startTime)) && old(pauseTime) != 0 then
        startTime == Some(old(startTime).value + (now - old(pauseTime))) &&
        pauseTime == 0 && pauses == old(pauses) + [PauseSpan(old(pauseTime), now)]
      else
        startTime == old(startTime) && pauseTime == old(pauseTime) && pauses == old(pauses)
    }

    /** The start-time adjustment of `resumeRecording`. */
    method ShiftClock(now: int)
      requires Valid()
      modifies this`startTime, this`pauseTime, this`pauses
      ensures Valid()
      ensures ShiftedBy(now)
    {
      if Truthy(startTime) && pauseTime != 0 {
        var pauseDuration := now - pauseTime;
        TotalPausedAppend(pauses, PauseSpan(pauseTime, now));
        pauses := pauses + [PauseSpan(pauseTime, now)];
        startTime := Some(startTime.value + pauseDuration);
        pauseTime := 0;
      }
    }

    /**
     * The synchronous part shared by stop and discard: unless a release is
     * already in flight or there is no recording, take the guard, reset
     * metering, clock and pause state, clear the countdown, clear the
     * recording cell and issue the unload of the instance it held.
     */
    method BeginRelease(op: Op) returns (began: bool)
      requires Valid()
      modifies this`isStopping, this`inFlight, this`levels, this`metering, this`startTime,
               this`pauseTime, this`isPaused, this`countdown, this`recording, this`unloads,
               this`released
      ensures Valid()
      ensures began == (!old(isStopping) && old(recording).Some?)
      ensures !began ==> unchanged(this)
      ensures began ==> ReleasedAs(op)
    {
      if isStopping || recording.None? {
        return false;
      }
      StopMetering();
      ResetClock();
      ClearCountdown();
      TakeRecording(op);
      began := true;
    }

    /** `startTimeRef = null`, `pauseTimeRef = 0`, `setIsPaused(false)`. */
    method ResetClock()
      requires Valid()
      modifies this`startTime, this`pauseTime, this`isPaused
      ensures Valid()
      ensures startTime.None? && pauseTime == 0 && !isPaused
    {
      startTime := None;
      pauseTime := 0;
      isPaused := false;
    }

    /**
     * Raise the guard, clear the recording cell and issue the unload of the
     * instance it held, on behalf of `op`.
     */
    method TakeRecording(op: Op)
      requires Valid() && !isStopping && recording.Some?
      modifies this`isStopping, this`inFlight, this`recording, this`unloads, this`released
      ensures Valid()
      ensures isStopping && inFlight == Some(InFlight(op, old(recording).value)) && recording.None?
      ensures unloads == old(unloads) + [old(recording).value]
      ensures released == old(released)[old(recording).value := op]
    {
      var instance := recording.value;
      LogAfterRelease(instance, nextRecording, unloads, completions, released, completedIds, op);
      isStopping := true;
      recording := None;
      unloads := unloads + [instance];
      released := released[instance := op];
      inFlight := Some(InFlight(op, instance));
    }

    /** `stopRecording` up to its first `await`; a re-entrant call is a no-op. */
    method StopBegin() returns (began: bool)
      requires Valid()
      modifies this`isStopping, this`inFlight, this`levels, this`metering, this`startTime,
               this`pauseTime, this`isPaused, this`countdown, this`recording, this`unloads,
               this`released
      ensures Valid()
      ensures began == (!old(isStopping) && old(recording).Some?)
      ensures !began ==> unchanged(this)
      ensures began ==> ReleasedAs(StopOp)
    {
      began := BeginRelease(StopOp);
    }

    /**
     * The rest of `stopRecording`: the unload's rejection is swallowed (so
     * `unloadRejected` changes nothing); the completion callback is called
     * once, for the released instance, exactly when its URI is truthy; then
     * the recording audio mode is switched off and the notification
     * dismissed.  The first rejection skips what follows and is rethrown;
     * the guard is cleared in every case.
     */
    method StopFinish(uri: Option<string>, unloadRejected: bool, fault: FinishFault)
      returns (r: Outcome)
      requires Valid() && inFlight.Some? && inFlight.value.op == StopOp
      modifies this`isStopping, this`inFlight, this`completions, this`completedIds,
               this`modeChanges, this`dismissals
      ensures Valid() && !isStopping && inFlight.None?
      ensures completions == if UriTruthy(uri)
                             then old(completions) + [Completion(old(inFlight).value.instance, uri.value)]
                             else old(completions)
      ensures UriTruthy(uri) && fault == CompletionThrows ==>
                r == Err(CompletionFailed) && modeChanges == old(modeChanges) &&
                dismissals == old(dismissals)
      ensures !(UriTruthy(uri) && fault == CompletionThrows) ==> ClosedOut(fault, r)
    {
      var instance := inFlight.value.instance;
      LogAfterStopFinish(recording, nextRecording, unloads, completions, released, completedIds,
                         instance, if UriTruthy(uri) then uri.value else "");
      if UriTruthy(uri) {
        completions := completions + [Completion(instance, uri.value)];
        completedIds := completedIds + {instance};
      }
      if UriTruthy(uri) && fault == CompletionThrows {
        r := Err(CompletionFailed);
      } else {
        r := CloseOut(fault);
      }
      isStopping := false;
      inFlight := None;
    }

    /**
     * What the tail of stop/discard asks after the unload: the recording
     * audio mode switched off, then the notification dismissed, each only
     * if everything before it resolved; `r` is the first rejection.
     */
    twostate predicate ClosedOut(fault: FinishFault, r: Outcome)
      reads this
    {
      modeChanges == old(modeChanges) + [false] &&
      dismissals == (if fault == AudioModeThrows then old(dismissals) else old(dismissals) + 1) &&
      r == (if fault == AudioModeThrows then Err(AudioModeRejected)
            else if fault == DismissThrows then Err(DismissFailed)
            else Ok)
    }

    /** `setAudioModeAsync({ allowsRecordingIOS: false })`, then `dismissNotification()`. */
    method CloseOut(fault: FinishFault) returns (r: Outcome)
      modifies this`modeChanges, this`dismissals
      ensures ClosedOut(fault, r)
    {
      SetAudioMode(false);
      if fault == AudioModeThrows {
        return Err(AudioModeRejected);
      }
      DismissNotification();
      r := if fault == DismissThrows then Err(DismissFailed) else Ok;
    }

    /** `discardRecording` up to its first `await`; a re-entrant call is a no-op. */
    method DiscardBegin() returns (began: bool)
      requires Valid()
      modifies this`isStopping, this`inFlight, this`levels, this`metering, this`startTime,
               this`pauseTime, this`isPaused, this`countdown, this`recording, this`unloads,
               this`released
      ensures Valid()
      ensures began == (!old(isStopping) && old(recording).Some?)
      ensures !began ==> unchanged(this)
      ensures began ==> ReleasedAs(DiscardOp)
    {
      began := BeginRelease(DiscardOp);
    }

    /**
     * The rest of `discardRecording`: like the stop, without reading the
     * URI and without calling the completion callback; every rejection is
     * swallowed and the guard is cleared.
     */
    method DiscardFinish(unloadRejected: bool, fault: FinishFault) returns (r: Outcome)
      requires Valid() && inFlight.Some? && inFlight.value.op == DiscardOp
      modifies this`isStopping, this`inFlight, this`modeChanges, this`dismissals
      ensures Valid() && !isStopping && inFlight.None?
      ensures r == Ok
      ensures modeChanges == old(modeChanges) + [false]
      ensures dismissals == if fault == AudioModeThrows then old(dismissals) else old(dismissals) + 1
    {
      LogAfterDiscardFinish(recording, nextRecording, unloads, completions, released, completedIds,
                            inFlight.value.instance);
      var swallowed := CloseOut(fault);
      isStopping := false;
      inFlight := None;
      r := Ok;
    }

    /**
     * The device's status-update callback: at 60 000 ms or more of
     * recorded audio it calls the current `stopRecording`, whose guard
     * makes a repeat a no-op.
     */
    method ProgressUpdate(durationMillis: int) returns (began: bool)
      requires Valid()
      modifies this`isStopping, this`inFlight, this`levels, this`metering, this`startTime,
               this`pauseTime, this`isPaused, this`countdown, this`recording, this`unloads,
               this`released
      ensures Valid()
      ensures began == (durationMillis >= AutoStopMillis && !old(isStopping) && old(recording).Some?)
      ensures !began ==> unchanged(this)
      ensures began ==> ReleasedAs(StopOp)
    {
      began := false;
      if durationMillis >= AutoStopMillis {
        began := StopBegin();
      }
    }

    /**
     * The AppState listener: on becoming active with a recording and a set
     * start instant it shows the wall-clock elapsed seconds, with no clamp,
     * and calls `stopRecording` when that reaches 60.
     */
    method Foreground(next: AppStatus, now: int) returns (began: bool)
      requires Valid()
      modifies this`isStopping, this`inFlight, this`levels, this`metering, this`startTime,
               this`pauseTime, this`isPaused, this`countdown, this`recording, this`unloads,
               this`released, this`timer
      ensures Valid()
      ensures !(next == Active && old(recording).Some? && Truthy(old(startTime))) ==>
                !began && unchanged(this)
      ensures next == Active && old(recording).Some? && Truthy(old(startTime)) ==>
                timer == ElapsedSeconds(now, old(startTime).value) &&
                began == (timer >= CapSeconds && !old(isStopping))
      ensures began ==> ReleasedAs(StopOp)
      ensures !began ==> NotReleased()
    {
      began := false;
      if next == Active && recording.Some? && Truthy(startTime) {
        var elapsed := ElapsedSeconds(now, startTime.value);
        timer := elapsed;
        if elapsed >= CapSeconds {
          began := StopBegin();
        }
      }
    }

    /**
     * The listener effect's cleanup (unmount, or a new `recording` or
     * `stopRecording`): stop a live recording through the same guard.
     */
    method Teardown() returns (began: bool)
      requires Valid()
      modifies this`isStopping, this`inFlight, this`levels, this`metering, this`startTime,
               this`pauseTime, this`isPaused, this`countdown, this`recording, this`unloads,
               this`released
      ensures Valid()
      ensures began == (!old(isStopping) && old(recording).Some?)
      ensures !began ==> unchanged(this)
      ensures began ==> ReleasedAs(StopOp)
    {
      began := false;
      if recording.Some? {
        began := StopBegin();
      }
    }
  }
}
