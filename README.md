# Audio recording lifecycle controller, modelled in Dafny

This project models the recording controller of the `useAudioRecording` React
hook (`hooks/use-audio-recording.ts`). The hook owns one expo-av recording and
does four things:

- it shows a waveform buffer (`levels`) fed by a 100 ms metering interval;
- it shows a seconds counter (`timer`) fed by a 1 s countdown interval;
- it keeps a start/pause clock pair (`startTimeRef`, `pauseTimeRef`);
- it stops or discards the recording behind one re-entrancy guard (`isStoppingRef`).

Modules:

- `Wrappers`: `Option`, for JavaScript's `T | null`.
- `Metering`:
  - the JavaScript `slice` with negative starts;
  - the shift-and-append of one metering sample, and the window it keeps over any run of samples;
  - the `0.05` amplitude floor;
  - which device readings yield a sample.
- `Clock`:
  - `Math.floor` of the elapsed milliseconds;
  - the countdown's clamp;
  - the JavaScript truthiness of the start instant;
  - the proof that shifting the start by every paused interval excludes paused time.
- `AudioRecording`: the class `Recorder`.
  - Its fields are the hook's state cells and refs, plus logs of what the controller asked of its collaborators.
  - Each hook operation and each timer or device callback is one method.
  - Every method keeps the invariant `Valid()`:
    - the buffer holds at most `maxBars` samples, each `>= 0.05`;
    - the guard is set exactly while a stop or discard is suspended;
    - the start instant equals the real start plus all excluded pauses;
    - the record log holds: every recording is unloaded at most once and completed at most once, only after a stop released it, never after a discard.
- `Scenarios`: whole runs on a fresh controller with concrete results.

### How the model works

Time is a parameter: `now`, in milliseconds. Timer callbacks are the tick
methods `MeteringTick` and `CountdownTick`. Only the interval whose handle is
current fires.

The answers of the collaborators are parameters:

- expo-av (`createAsync`, `pauseAsync`, `startAsync`, `stopAndUnloadAsync`, `getURI`, `getStatusAsync`);
- `Audio.setAudioModeAsync`;
- `onRecordingComplete`;
- `setupNotification` and `dismissNotification`.

What the controller asks of them is appended to the logs `modeChanges`,
`unloads`, `completions`, `notifications` and `dismissals`. Recordings and
intervals are identified by the number under which they were created.

`stopRecording` and `discardRecording` each become two steps:

- `StopBegin` / `DiscardBegin` run the synchronous part up to the first `await`, and issue the unload there.
- `StopFinish` / `DiscardFinish` run the rest, `finally` included.

Between the two steps, `inFlight` holds the suspended call. A second stop or
discard arriving then begins nothing and changes nothing; so does a progress
callback at the limit, and so does a foreground check as long as no new
recording was started meanwhile (a start is unguarded, and after one the
foreground check updates `timer` but its stop is still refused by the guard).

### Where the model follows the code rather than its description

- **The countdown never stops the recording.** The 1 s countdown only updates
  `timer` (source lines 78-85 and 137-144). The only automatic stops are
  the device progress callback (lines 68-72) and the foreground handler
  (lines 236-243); the listener effect's cleanup (line 247) also calls
  `stopRecording` when a recording is live.
- **`timer` is clamped only from above.** The countdown clamps at 60. The
  foreground handler writes the elapsed seconds unclamped (line 240).
- **Handles can be overwritten.** `startRecording` neither checks for a live
  recording nor clears old interval handles, so a repeated start overwrites
  them. The ghost counter `leakedTimers` counts each such overwrite.
- **`isPaused` and `pauseTimeRef` survive a start.** `startRecording` resets
  neither. After start, pause at 5 s, start again at 20 s, resume at 30 s and a
  tick at 50 s, the resume shifts the new start instant by the old pause, so
  the timer shows 5 while the new recording has run for 30 s. The clock
  invariant still holds (the shift is one more excluded span), but
  `ActiveTime` then differs from the new recording's real running time.
- **A foreground check during a pause counts the paused time.** The handler
  measures from the start instant, which is shifted only at resume (line 239).
  Recording 10 s, pausing, and coming back 65 s later shows 75 and begins the
  stop on a recording holding 10 s of audio
  (`Scenarios.ForegroundCountsPausedTime`).
- **JavaScript truthiness is kept.** `startTimeRef` and `pauseTimeRef` equal to
  0 count as unset, and an empty URI does not complete.
- **The buffer cap needs `maxBars >= 2`.** `prev.slice(-MAX_BARS + 1)` caps the
  buffer only when `MAX_BARS >= 2`. With `MAX_BARS == 1` it is `slice(0)` and keeps
  everything (`Metering.MaxBarsOneKeepsAll`). The constructor therefore
  requires `maxBars >= 2`.

## Model

| member | source | states |
|---|---|---|
| Metering.SliceFrom | hooks/use-audio-recording.ts:41 | `slice(start)` returns a suffix of its input; a negative start keeps the last `min(len, -start)` elements, a non-negative one drops the first `start` |
| Metering.Push | hooks/use-audio-recording.ts:41 | one append puts the new amplitude last, keeps a suffix of the previous buffer in front of it, and with `maxBars >= 2` gives length `min(len + 1, maxBars)` |
| Metering.PushIsWindow | hooks/use-audio-recording.ts:41 | with `maxBars >= 2`, one append equals the newest `maxBars` elements of old buffer plus sample (oldest evicted first) |
| Metering.MaxBarsOneKeepsAll | hooks/use-audio-recording.ts:41 | with `maxBars == 1` an append evicts nothing, so the buffer grows past the cap |
| Metering.PushAllIsWindow | hooks/use-audio-recording.ts:33-42 | any run of metering appends leaves exactly the newest `maxBars` of all samples seen, in arrival order |
| Metering.Amplitude | hooks/use-audio-recording.ts:37-40 | the amplitude is the larger of `0.05` and the linear value |
| Metering.Sample | hooks/use-audio-recording.ts:34-40 | a reading yields a sample exactly when it is recording and has a numeric metering value; the sample is `>= 0.05` and `>=` the linear value |
| Clock.ElapsedSeconds | hooks/use-audio-recording.ts:80-82 | the whole seconds elapsed are the floor of the milliseconds over 1000 |
| Clock.CountdownValue | hooks/use-audio-recording.ts:83 | the countdown shows the elapsed seconds, capped at 60 |
| Clock.TotalPausedAppend | hooks/use-audio-recording.ts:130-134 | one more pause cycle adds its length to the total paused time |
| Clock.ShiftedStartExcludesPauses | hooks/use-audio-recording.ts:130-134 | after shifting the start by every paused interval, `now - start` equals the sum of the running segments |
| AudioRecording.BufferAfterPush | hooks/use-audio-recording.ts:41 | an append of a floored sample keeps the buffer capped at `maxBars` and floored at `0.05` |
| AudioRecording.LogAfterStart | hooks/use-audio-recording.ts:63-74 | a new recording gets a fresh id that nothing has unloaded or completed |
| AudioRecording.LogAfterRelease | hooks/use-audio-recording.ts:169-174 | releasing the live recording unloads it for the first time and leaves it suspended, not completed |
| AudioRecording.LogAfterStopFinish | hooks/use-audio-recording.ts:179-184 | completing the suspended stop's recording keeps every recording completed at most once and never a discarded one |
| AudioRecording.LogAfterDiscardFinish | hooks/use-audio-recording.ts:212-221 | ending a discard completes nothing; its recording stays released by a discard and not completed |
| AudioRecording.DiscardedNeverCompleted | hooks/use-audio-recording.ts:197-230 | no completion call names a recording that a discard released |
| AudioRecording.Recorder.constructor | hooks/use-audio-recording.ts:20-30 | the initial render: no recording, empty buffer, timer 0, not paused, no start instant, pause instant 0, no intervals, guard clear, all collaborator logs empty |
| AudioRecording.Recorder.Start | hooks/use-audio-recording.ts:53-93 | asks for the recording audio mode; a mode rejection is rethrown with nothing else changed (recording, clock, timer, intervals, notifications, and the ghost start record and leak count); otherwise continues as `StartCreate` |
| AudioRecording.Recorder.StartCreate | hooks/use-audio-recording.ts:63-88 | a `createAsync` rejection is rethrown with nothing changed, the ghost start record and leak count included; otherwise a fresh recording is live, the clock restarts at `now`, the timer shows 0, a fresh countdown is armed and then the notification step runs |
| AudioRecording.Recorder.StartNotify | hooks/use-audio-recording.ts:87-88 | the notification is requested; if it rejects, the rejection is rethrown and no metering starts; otherwise a fresh metering interval is armed |
| AudioRecording.Recorder.SetAudioMode | hooks/use-audio-recording.ts:55-61 | the audio-mode request, with its `allowsRecordingIOS` value, is appended to the log |
| AudioRecording.Recorder.SetupNotification | hooks/use-audio-recording.ts:87 | one more notification setup is requested |
| AudioRecording.Recorder.DismissNotification | hooks/use-audio-recording.ts:188 | one more notification dismissal is requested |
| AudioRecording.Recorder.OpenSession | hooks/use-audio-recording.ts:74-85 | the new recording becomes current, the start instant is `now` with no excluded pause, the timer is 0, and a fresh countdown handle overwrites the old one |
| AudioRecording.Recorder.ArmCountdown | hooks/use-audio-recording.ts:78-85 | a fresh countdown handle is stored; an overwritten live handle is counted as leaked |
| AudioRecording.Recorder.StartMetering | hooks/use-audio-recording.ts:32-43 | a fresh metering handle is stored; an overwritten live handle is counted as leaked |
| AudioRecording.Recorder.StopMetering | hooks/use-audio-recording.ts:45-51 | the metering interval is cleared and the waveform emptied |
| AudioRecording.Recorder.ClearCountdown | hooks/use-audio-recording.ts:164-167 | the countdown interval is cleared |
| AudioRecording.Recorder.MeteringTick | hooks/use-audio-recording.ts:33-42 | only an armed interval fires; a reading that is not recording or has no numeric metering leaves `levels` unchanged, otherwise `levels` becomes the append of its amplitude; the cap and floor are preserved |
| AudioRecording.Recorder.CountdownTick | hooks/use-audio-recording.ts:78-85 | with an armed countdown and a truthy start instant, `timer = min(60, floor((now - start) / 1000))`, which equals the active (unpaused) time in seconds, capped; otherwise nothing changes |
| AudioRecording.Recorder.Pause | hooks/use-audio-recording.ts:95-120 | a no-op without a recording or when already paused; a device rejection is rethrown with nothing changed; otherwise paused, both intervals cleared, pause instant `now`, waveform kept |
| AudioRecording.Recorder.Resume | hooks/use-audio-recording.ts:122-152 | a no-op unless a recording exists and is paused; a device rejection is rethrown with nothing changed; otherwise unpaused, the clock shifted past the pause, and fresh countdown and metering handles are armed |
| AudioRecording.Recorder.Rearm | hooks/use-audio-recording.ts:136-147 | fresh countdown and metering handles, each overwrite of a live handle counted as leaked |
| AudioRecording.Recorder.ShiftClock | hooks/use-audio-recording.ts:129-134 | when both instants are truthy, the start moves forward by `now - pauseTime`, the pause instant becomes 0 and the pause joins the excluded spans; otherwise nothing moves |
| AudioRecording.Recorder.BeginRelease | hooks/use-audio-recording.ts:155-174 | begins exactly when no release is in flight and a recording exists; otherwise nothing changes. If it begins: the guard is raised, metering, countdown and clock are reset, the recording cell is cleared and the unload of the held instance is issued |
| AudioRecording.Recorder.ResetClock | hooks/use-audio-recording.ts:160-162 | the start instant is unset, the pause instant is 0, not paused |
| AudioRecording.Recorder.TakeRecording | hooks/use-audio-recording.ts:156-174 | the guard is raised, the recording cell cleared and the held instance unloaded once, recorded as released by this operation |
| AudioRecording.Recorder.StopBegin | hooks/use-audio-recording.ts:154-174 | a stop while one is in flight, or without a recording, is a no-op; otherwise the synchronous release on behalf of a stop |
| AudioRecording.Recorder.StopFinish | hooks/use-audio-recording.ts:173-194 | an unload rejection is swallowed; completion is called once with the instance's URI exactly when the URI is truthy; then the audio mode is switched off and the notification is dismissed; the first rejection is rethrown and skips the rest; the guard is cleared in every case |
| AudioRecording.Recorder.CloseOut | hooks/use-audio-recording.ts:187-188 | the audio mode is switched off, then the notification is dismissed unless the mode request rejected; the result is the first rejection |
| AudioRecording.Recorder.DiscardBegin | hooks/use-audio-recording.ts:197-217 | the same guard, reset and release as a stop, on behalf of a discard |
| AudioRecording.Recorder.DiscardFinish | hooks/use-audio-recording.ts:215-229 | never calls the completion callback (`completions` is outside its frame), swallows every rejection and clears the guard |
| AudioRecording.Recorder.ProgressUpdate | hooks/use-audio-recording.ts:68-72 | at 60000 ms or more of device progress, behaves as the guarded stop; below that nothing changes |
| AudioRecording.Recorder.Foreground | hooks/use-audio-recording.ts:236-243 | on `active`, with a recording and a truthy start instant, the timer shows the unclamped elapsed seconds and the guarded stop begins when that is `>= 60`; any other case changes nothing |
| AudioRecording.Recorder.Teardown | hooks/use-audio-recording.ts:245-248 | the effect cleanup stops a live recording through the same guard |
| Scenarios.PauseResumeExcludesPause | hooks/use-audio-recording.ts:122-144 | start, pause after 5 s, resume after 10 s, countdown tick after 20 s: the timer shows 15 |
| Scenarios.AutoStopBeginsOnce | hooks/use-audio-recording.ts:236-243 | the device limit begins the stop; a foreground check at 61 s while it is suspended begins nothing |
| Scenarios.AutoStopCompletesOnce | hooks/use-audio-recording.ts:179-184 | a stop begun by the device limit and finished with a saved file calls the completion callback exactly once, for recording 0 with that URI |
| Scenarios.DiscardNeverCompletes | hooks/use-audio-recording.ts:197-230 | a stop during a discard is a no-op; a rejected dismissal is swallowed; no completion is called |
| Scenarios.ForegroundCountsPausedTime | hooks/use-audio-recording.ts:236-243 | 10 s recorded, then paused; a foreground check 65 s after the pause shows 75 and begins the stop |
| Scenarios.GuardRefusesWithLiveRecording | hooks/use-audio-recording.ts:155-156 | a start during a suspended stop makes a new recording live; a second stop is then refused by the guard alone |
| Scenarios.ForegroundDoesNotClamp | hooks/use-audio-recording.ts:236-243 | after 90.5 s the countdown shows 60, the foreground handler shows 90 and begins the stop |

## Left out

- Real timers: `setInterval` scheduling and `Date.now()` are left out. Time is the parameter `now`, and each callback is an explicit tick method.
- Leaked intervals: an interval whose handle was overwritten is only counted in `leakedTimers`. It does not fire in the model.
- Async interleaving: only stop and discard are split at their first `await`. Start, pause and resume run to completion, with each collaborator's answer as a parameter. Any operation may run while a stop or discard is suspended, but a stop, discard or tick arriving inside a start's, pause's or resume's own `await`s is not explored.
- Metering.Sample: device readings are modelled as reals, so a NaN reading cannot occur. In the source `typeof NaN === "number"` passes the filter at line 35 and `Math.max(0.05, NaN)` is NaN, which line 41 appends; the `0.05` floor proved for `Metering.Sample` and `MeteringTick` holds in the source only for non-NaN readings.
- `getStatusAsync` inside the metering callback: the reading it resolves to is the tick's parameter.
- React specifics:
  - state updates take effect at once, with no stale-closure reads of `recording` or `isPaused`;
  - effect re-runs are not modelled. The cleanup that runs with a previous closure's `recording` after a stop is modelled only as `Teardown` on the current state;
  - `onStopRecordingRef` is always taken to hold the current `stopRecording`. The window before the first effect, when it is still null, is left out;
  - subscribing to and removing the AppState listener are left out.
- The power formula `Math.pow(10, (db + 40) / 20)` is floating point. It is the parameter `toLinear`, and only the `0.05` floor is proved.
- Error values: rethrown errors are represented by `Failure` tags, not by the library's error objects. `console.log` and `console.error` output is left out.
- Recording options the code passes but never reads are left out: the audio mode options other than `allowsRecordingIOS`, the `HIGH_QUALITY` preset, and `setProgressUpdateInterval(500)`.
- `MAX_BARS`: its value lives in `constants/recording`, which is not part of this model. It is the constructor's `maxBars`, required to be `>= 2`.
- The `if (recordingInstance)` checks at lines 172 and 215 always hold after the guard at lines 155 and 198, so their false branches are not modelled.
