# SOS flashlight: decision logic as a verified state machine

The application is a single Android activity with three jobs:

- It toggles the camera torch, with haptic feedback.
- It toggles the torch when the phone is shaken, with a debounce.
- It runs an SOS light-and-beep sequence that repeats until it is stopped.

This project models the sequential decision logic under the platform calls.
The model is an immutable `State` record with the fields `isFlashOn`,
`lastShakeTime` and `isSOSActive`. Pure step functions take that record and
return the new record plus a trace of abstract hardware commands:

- `SetTorch(on)`
- `Vibrate(ms)`
- `Beep`
- the media-player calls
- `LaunchSos` and `CancelSos`
- `Delay(ms)`
- `Show(notice)` for toasts

A torch request that throws still appears in the trace as its `SetTorch`
command. The error notice follows it. The same holds for a vibration request
that throws: the torch and vibration requests share one guarded block.

Time is not modelled. Every suspension of the SOS coroutine appears as a
`Delay` command.

Platform facts enter as inputs:

- The capability flags in `Env`:
  - a first camera id exists;
  - the platform level supports torch control;
  - a media player was created.
- The result of the floating-point shake-threshold test, as a boolean.
- The wall-clock time of a sample, as an integer.
- Which guarded call of the flashlight toggle throws, if any: the torch
  request or the vibration request (`Fault`).
- Whether the media player is currently playing, as a boolean.

The coroutine reads the shared `isSOSActive` flag at two places: the head of
each round, and each symbol boundary of a pass. Those reads are a sequence of
observed values, consumed in order. Once the sequence runs out, the flag
reads false.

Files:

- `commands.dfy`: the command type, and projections of a trace onto torch
  values, vibrations and delays.
- `device.dfy`: the state record, the capabilities and the initial state.
- `flashlight.dfy`: the flashlight toggle and its vibration choice.
- `shake.dfy`: the debounce filter and the sensor callback.
- `sos.dfy`: the SOS toggle, the coroutine, one pattern pass and the beep
  routine.

Four behaviours of the code are kept as written:

- Stopping SOS issues no torch-off request.
- The two 400 ms "pause" entries of the pattern light the torch like every
  other entry, so a pass has eleven torch-on requests, not nine.
- A throwing torch request in the flashlight toggle leaves `isFlashOn`
  flipped.
- The beep is issued once per round and again at every symbol.

## Model

| member | source | states |
|---|---|---|
| Flashlight.ToggleFlash | app/src/main/java/com/example/miniproyecto/MainActivity.kt:93-108 | The torch flag flips iff a camera id exists and torch control is supported, and no other field changes. On a drivable torch, exactly one torch request is made, carrying the new value, and it comes first. The vibration request comes right after it unless the torch request threw. The error notice appears exactly when the torch or vibration request threw, and it comes last. With no camera id, nothing is issued. With a camera id but no torch support, the only command is the unsupported-platform notice. |
| Flashlight.VibrationMs | app/src/main/java/com/example/miniproyecto/MainActivity.kt:174 | The pulse is 200 ms exactly when the torch is now on, and 100 ms exactly when it is now off. |
| Flashlight.FeedbackMatchesTorch | app/src/main/java/com/example/miniproyecto/MainActivity.kt:172-177 | Whenever a drivable toggle reaches the vibrator, the requested pulse is 200 ms exactly when the torch is now on, and 100 ms exactly when it is now off. |
| Flashlight.ToggleTwiceRestores | app/src/main/java/com/example/miniproyecto/MainActivity.kt:95-99 | Two toggles on a drivable torch restore the original state, whether or not the requests threw. Together they request the opposite value and then the original one. |
| Flashlight.UnavailableChangesNothing | app/src/main/java/com/example/miniproyecto/MainActivity.kt:95-103 | With no camera id or no torch support, the state is unchanged and no torch or vibration request is made. With a camera id, the trace is exactly the unsupported-platform notice. |
| Flashlight.FailureKeepsFlip | app/src/main/java/com/example/miniproyecto/MainActivity.kt:97-106 | When the torch request throws, the flag stays flipped. The trace is the torch request and then the error notice, with no vibration. |
| Flashlight.VibratorFailureAfterTorch | app/src/main/java/com/example/miniproyecto/MainActivity.kt:97-106 | When the vibration request throws, the flag stays flipped and the torch was asked for the new value. The trace is the torch request, the vibration request, then the error notice. |
| Shake.OnSensorChanged | app/src/main/java/com/example/miniproyecto/MainActivity.kt:81-87 | An over-threshold sample more than 1000 ms after the last accepted shake stores its time and toggles the flashlight. Any other sample leaves the state and the trace untouched. |
| Shake.Feed | app/src/main/java/com/example/miniproyecto/MainActivity.kt:72-89 | Callbacks delivered in order never touch the SOS flag. A stream in which no sample crosses the threshold changes nothing and issues nothing. |
| Shake.AcceptedSpaced | app/src/main/java/com/example/miniproyecto/MainActivity.kt:81-86 | The first accepted shake is more than 1000 ms after the stored timestamp. Any two accepted shakes are more than 1000 ms apart, whatever order the clock readings arrive in. |
| Shake.InitialDebounce | app/src/main/java/com/example/miniproyecto/MainActivity.kt:34 | Starting from the initial timestamp 0, every accepted shake is at a time above 1000. Accepted shakes are pairwise more than 1000 ms apart. |
| Shake.FeedStoresLastAccepted | app/src/main/java/com/example/miniproyecto/MainActivity.kt:81-86 | After a stream of callbacks, the stored timestamp is the last accepted time, or the original one if none was accepted. The SOS flag is never touched. |
| Shake.FeedTogglesPerShake | app/src/main/java/com/example/miniproyecto/MainActivity.kt:83-99 | On a drivable torch, a stream of callbacks flips the torch flag once per accepted shake, even when a guarded call threw. |
| Shake.FeedTorchAlternates | app/src/main/java/com/example/miniproyecto/MainActivity.kt:81-98 | On a drivable torch, the torch requests of a stream come out in callback order. They alternate, starting with the opposite of the stored flag. |
| Shake.FeedTorchPerShake | app/src/main/java/com/example/miniproyecto/MainActivity.kt:83-98 | On a drivable torch, a stream of callbacks requests exactly one torch value per accepted shake. |
| Shake.OneSampleToggles | app/src/main/java/com/example/miniproyecto/MainActivity.kt:81-99 | On a drivable torch, one callback stores its time, flips the torch flag and requests one torch value exactly when it is accepted. |
| Shake.FeedWithoutTorch | app/src/main/java/com/example/miniproyecto/MainActivity.kt:85-103 | Without a drivable torch, no stream of callbacks changes the torch flag or requests a torch value. |
| Sos.PassRun | app/src/main/java/com/example/miniproyecto/MainActivity.kt:141-152 | The recursive form of the symbol loop. Its contract says only that a pass never consumes more flag reads than it is given. Sos.PassRunStopsAtFirstFalse and Sos.PassLoop describe what it emits. |
| Sos.PassRunStopsAtFirstFalse | app/src/main/java/com/example/miniproyecto/MainActivity.kt:141-152 | A pass emits exactly the complete symbols for the pattern entries before the first false flag read. It consumes those reads plus the false one. |
| Sos.PassLoop | app/src/main/java/com/example/miniproyecto/MainActivity.kt:141-152 | The early-exit loop over the pattern produces the same trace and leaves the same flag reads as the recursive pass. |
| Sos.FlashSos | app/src/main/java/com/example/miniproyecto/MainActivity.kt:128-157 | With torch control, the routine is the pass over the eleven-entry pattern. Otherwise the routine reads no flag. Without torch support, its only command is the unsupported notice, shown again on every call. With support but no camera id, it issues nothing. |
| Sos.Group | app/src/main/java/com/example/miniproyecto/MainActivity.kt:145-151 | One symbol is five commands in this order: torch on, beep, wait for the symbol duration, torch off, wait 200 ms. Whatever the torch was before, the symbol keeps it lit for exactly its duration and leaves it off. |
| Sos.GroupsLit | app/src/main/java/com/example/miniproyecto/MainActivity.kt:141-152 | Back-to-back symbols keep the torch lit for exactly the sum of their durations and leave it off. |
| Sos.Groups | app/src/main/java/com/example/miniproyecto/MainActivity.kt:141-152 | Symbols back to back take five commands each. |
| Sos.GroupsFacts | app/src/main/java/com/example/miniproyecto/MainActivity.kt:141-152 | Symbols back to back take five commands each. Their torch requests alternate, starting with on: two per symbol, one of them on. Their waits sum to the durations plus 200 ms per symbol. |
| Sos.PatternSum | app/src/main/java/com/example/miniproyecto/MainActivity.kt:130-138 | The pattern has eleven entries whose durations sum to 3800 ms. |
| Sos.FullPass | app/src/main/java/com/example/miniproyecto/MainActivity.kt:130-152 | With every flag read true, a pass is eleven symbols in pattern order. It has eleven torch-on requests alternating with torch-off requests (22 in all). The last request is off, and the waits total 6000 ms. |
| Sos.FullPassLit | app/src/main/java/com/example/miniproyecto/MainActivity.kt:130-152 | A full pass keeps the torch lit for 3800 ms and dark for 2200 ms, and ends with it off. |
| Sos.StopAtBoundary | app/src/main/java/com/example/miniproyecto/MainActivity.kt:141-142 | A false read at boundary k ends the pass after exactly the first k symbols. Later reads make no difference. The torch requests are the first 2k of a full pass. |
| Sos.PassAlternates | app/src/main/java/com/example/miniproyecto/MainActivity.kt:141-151 | Whatever the flag reads, a pass's torch requests alternate, starting with on, and end with off. |
| Sos.Job | app/src/main/java/com/example/miniproyecto/MainActivity.kt:113-119 | The coroutine issues nothing exactly when its first flag read is false. Every non-empty run opens with the beep and closes with the 3000 ms pause, including a round whose pass was cut short. |
| Sos.JobAlternates | app/src/main/java/com/example/miniproyecto/MainActivity.kt:113-119 | Whatever the flag reads, the coroutine's torch requests alternate, starting with on, and end with off. |
| Sos.JobPrefixAlternates | app/src/main/java/com/example/miniproyecto/MainActivity.kt:114-118 | The alternation holds at every prefix of the coroutine's trace. |
| Sos.JobRound | app/src/main/java/com/example/miniproyecto/MainActivity.kt:114-118 | Twelve true reads (the loop head and eleven boundaries) run one full round: beep, full pass, 3000 ms pause. The remaining reads go to the next loop head. |
| Sos.JobRepeats | app/src/main/java/com/example/miniproyecto/MainActivity.kt:114-118 | While the flag stays true for n rounds, the coroutine repeats the full round n times and then stops. |
| Sos.RepeatDelay | app/src/main/java/com/example/miniproyecto/MainActivity.kt:114-118 | Repeating a round n times repeats its waiting n times. |
| Sos.RoundsDelay | app/src/main/java/com/example/miniproyecto/MainActivity.kt:117 | Each uninterrupted round waits 9000 ms: the 6000 ms pass plus the 3000 ms pause. |
| Sos.PlayBeep | app/src/main/java/com/example/miniproyecto/MainActivity.kt:160-168 | With a player, the routine ends with exactly one start. It pauses and then seeks to position 0 exactly when the player was already playing, and both come before the start. That is three commands when playing and one when idle. Without a player it does nothing. |
| Sos.BeepRestartsCue | app/src/main/java/com/example/miniproyecto/MainActivity.kt:160-168 | On the media-player model, a beep leaves the player playing the cue from its start, whether or not a cue was in progress. |
| Sos.ToggleSos | app/src/main/java/com/example/miniproyecto/MainActivity.kt:110-125 | The SOS flag alternates and nothing else changes. Starting launches the coroutine. Stopping cancels it, then stops and re-prepares the player when one exists. Neither direction requests a torch value. |
| Sos.StartStopSession | app/src/main/java/com/example/miniproyecto/MainActivity.kt:111-124 | A start/stop pair restores the state. It issues launch, cancel, media stop and media prepare, in that order, and no torch request. |
| Sos.StopRewindsPlayer | app/src/main/java/com/example/miniproyecto/MainActivity.kt:121-123 | Stopping a session leaves the player idle at the start of the cue, and the next beep then plays the cue from its start. |

## Left out

- Screen layout and preview (lines 186-231): presentation only.
- Activity creation (lines 39-58) and sensor registration on resume and pause (lines 60-70): platform lookups. They appear only as the capability flags.
- The magnitude computation (lines 74-79): floating point. The test `delta > 8.0` is the boolean input `overThreshold`.
- The wall clock: the sample time is an integer input.
- Shake.OnSensorChanged: the time difference is unbounded integer subtraction, not 64-bit `Long` subtraction. The two differ only for clock readings near the limits of the 64-bit range.
- Coroutine scheduling and cancellation inside a `delay` (lines 113-121): a concurrency concern. Cancellation is modelled only as the flag reads at lines 114 and 142. The coroutine runs on the main thread, so a stop can only run while the coroutine is suspended in a `delay`, or before its first dispatch. The cancel then makes that `delay` throw, and the coroutine never reaches the false flag reads at lines 114 and 142. A real stopped run is therefore a prefix of the all-true trace, which Sos.JobPrefixAlternates covers. The false-read paths of Sos.Job and Sos.StopAtBoundary follow the source text, not the way a real stop ends the coroutine. A stop that lands inside a symbol's hold leaves the torch on in the real program; the model's complete passes always end with it off.
- A torch request that throws inside the SOS coroutine is not caught by the source. The model treats SOS torch requests as succeeding.
- Sos.ToggleSos: the media stop and prepare calls (lines 122-123) are not inside any `try`. The model treats them as succeeding and does not model the exception either could raise, which would escape the click handler.
- Sos.BeepRestartsCue: the media player is reduced to a playing flag and a position. An idle player, either freshly prepared or finished with its cue, is taken to start from position 0. Player states outside this reduction are not modelled.
- Sos.Job: the `Beep` command stands for one call of the beep routine. Sos.PlayBeep gives that call's media commands, taking the player's playing state as an input.
- Toast texts, the stack-trace print in the error handler (line 105), the two vibration API branches (lines 176-181, which issue the same pulse) and the accuracy callback (line 91, empty). They are foreign API details.
- The torch flag `isFlashOn` is not updated by the SOS pattern, as in the source. No lemma relates it to the torch after an SOS session.
