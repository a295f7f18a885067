# Voice-activity detection and list helpers of echo-trans, in Dafny

This project models the speech-detection core of the echo-trans browser
translator and the small pure libraries it is built on:

- **Decibel VAD**, the `useVAD` hook. It is a four-state hysteresis machine
  (`silent`, `pending_speech`, `speaking`, `pending_silence`). One analyser
  frame per animation frame is smoothed exponentially, then classified
  against a start and a stop threshold and two minimum durations. The
  hook's refs are the fields of the class `Vad.VadEngine`. The functions
  `Vad.Transition` and `Vad.Frame` state what one `updateVADState` and one
  `processFrame` call do to those refs, and which callbacks they fire in
  which order. The lemmas state what holds for any sequence of frames:
  - the states follow the table's edges;
  - speech callbacks alternate;
  - the timer refs stay consistent;
  - the smoothed value stays in range.
- **Legacy detector**, in `useWaveformVisualizer`. It has one speaking
  threshold, an `isSpeaking` flag and at most one pending silence timeout.
  Frames, timeouts firing and the effect's cleanup are explicit inputs. The
  browser's queue of pending timeouts is a set of ids.
- **Calibration panel**, `VADCalibrationPanel`. It has two measuring phases:
  250 background samples, then 150 speech samples, each phase averaged. The
  panel then derives two thresholds and saves them.
- **Settings loader**, `loadVADSettings`/`saveVADSettings`. It selects
  between the new and the legacy stored format. Storage is a map from keys
  to strings; the JSON codec is a pair of functions.
- **List helpers**, `handleUpdate`/`handleInsert`/`handleRemove`. They are
  written identically in `arrayStateHandlers.ts` and `arrayRBoxHandlers.ts`
  and are modelled once, together with both dispatchers.
- **`match`/`when` combinator** and the **`Box` identity monad**.

## Numbers

Numbers are modelled by `ExtNum.Num`: a finite real, one of the two
infinities, or NaN. Rounding is not modelled. NaN is kept because the code
produces it:
- an empty analyser buffer divides 0 by 0;
- a smoothing factor of 1 after a raw −∞ multiplies −∞ by 0;
- `Math.max` of a missing calibration level gives NaN.

## Behaviour of the code worth knowing

The model states these facts of the code as written:

- **Speech timer.** `speechStartTimeRef` is set on leaving `silent`
  (src/hooks/useVAD.ts:78) and cleared only when `pending_speech` falls back
  to `silent` (line 94) and by the reset when the detector is disabled
  (line 185, `Vad.VadEngine.SetEnabled`). It stays set on entering `speaking` (lines 87-89)
  and when speech ends (lines 116-119). The invariant that holds is
  `Vad.TimersConsistent`.
- **Empty buffer.** `calculateVolumeDB` divides 0 by 0 for an empty buffer
  (src/hooks/useVAD.ts:58), so it returns NaN rather than −∞. NaN is neither
  above nor at or below a threshold.
- **Callback order.** `onVolumeUpdate` is called after `updateVADState`
  (src/hooks/useVAD.ts:160-163), so it comes after `onStateChange` and
  `onSpeechStart`/`onSpeechEnd` of the same frame.
- **Calibrated thresholds.** `applyCalibration` writes only
  `silenceThreshold` and `speakingThreshold`
  (src/components/VADCalibrationPanel.tsx:161-165). The decibel engine reads
  `startThreshold` and `stopThreshold`, which the loader returns unchanged or
  replaces by its defaults (`Calibration.AppliedThresholdsNotReadBack`).
- **Cancel during the microphone prompt.** `startCalibration` sets the
  `silence` step (src/components/VADCalibrationPanel.tsx:35), where Cancel is
  shown (lines 203-217), before it awaits `getUserMedia` (line 39). A cancel
  in that window is undone by the grant, which attaches the analyser (lines
  49-57) and measures (line 124) from `idle`
  (`Calibration.CancelDuringPrompt`).

## Model

| member | source | states |
|---|---|---|
| JsValue.Get | src/utils/vadSettingsLoader.ts:13 | Reading a property fails with a TypeError exactly on `null` and `undefined`; a defined result comes from a present property of an object. |
| JsValue.GetOptional | src/lib/box.ts:36 | Optional chaining: a defined result means the value is an object holding that property. |
| Signal.SumSquares | src/hooks/useVAD.ts:49-56 | The accumulation loop of all three RMS functions computes the sum of squared normalised samples. |
| Vad.Smooth | src/hooks/useVAD.ts:150-157 | Definition of the exponential smoothing, seeded by the first volume; properties in `Vad.SmoothInRange` and `Vad.SilenceAfterSignal`. |
| Vad.Elapsed | src/hooks/useVAD.ts:85 | Definition of `timestamp - (start || timestamp)`; properties in `Vad.PendingSpeechRow` and `Vad.PendingSilenceRow`. |
| Vad.Transition | src/hooks/useVAD.ts:71-124 | Definition of `updateVADState`; properties in `Vad.TransitionFollowsTable`, the four row lemmas and `Vad.TransitionKeepsTimers`. |
| Vad.Frame | src/hooks/useVAD.ts:140-167 | Definition of one `processFrame`; properties in `Vad.FrameShape` and `Vad.FrameFiltered`. |
| Vad.VolumeDb | src/hooks/useVAD.ts:48-68 | The result is NaN exactly for an empty buffer and −∞ exactly for a non-empty all-zero buffer. Otherwise it is finite, within [−100, 0], and never +∞. |
| Vad.CalculateVolumeDb | src/hooks/useVAD.ts:48-68 | The loop-and-branch implementation returns `VolumeDb` of the buffer. |
| Vad.SmoothBetween | src/hooks/useVAD.ts:153-157 | For finite values and a factor in [0, 1], the exponential average lies between the old smoothed value and the raw one. |
| Vad.SmoothInRange | src/hooks/useVAD.ts:150-157 | The sentinel bootstrap and the average of two in-range values stay in range (−∞ or [−100, 0]) for a factor in [0, 1). |
| Vad.SilenceAfterSignal | src/hooks/useVAD.ts:150-157 | With a factor below 1, a silent frame resets the average to −∞ and the next frame re-bootstraps from the raw value. With a factor of 1 the average becomes NaN and stays NaN. |
| Vad.TransitionFollowsTable | src/hooks/useVAD.ts:71-124 | One update follows at most one table edge. Staying fires nothing and changes no ref. Moving fires `onStateChange(new)` first, then the edge's speech callback; the volumes are untouched. |
| Vad.SilentRow | src/hooks/useVAD.ts:75-81 | `silent` leaves exactly when volume > startThreshold. It then goes to `pending_speech` with the speech start set to now, firing one state change. |
| Vad.PendingSpeechRow | src/hooks/useVAD.ts:83-97 | It returns to `silent` exactly when volume ≤ startThreshold (or NaN), clearing the speech start without `onSpeechStart`. It goes to `speaking` exactly when volume > startThreshold and elapsed ≥ minSpeechDuration, firing the state change then `onSpeechStart`. |
| Vad.SpeakingRow | src/hooks/useVAD.ts:99-105 | `speaking` leaves exactly when volume ≤ stopThreshold. It then goes to `pending_silence` with the silence start set to now. |
| Vad.PendingSilenceRow | src/hooks/useVAD.ts:107-122 | Returns to `speaking` exactly when volume > stopThreshold, clearing the silence start without `onSpeechEnd`. Goes to `silent` exactly when not above stopThreshold and elapsed ≥ minSilenceDuration, firing the state change then `onSpeechEnd`, with the speech start kept. |
| Vad.TransitionKeepsTimers | src/hooks/useVAD.ts:71-124 | The update preserves the timer invariant: the silence start is set exactly in `pending_silence`, and every non-silent state has a speech start. |
| Vad.FrameShape | src/hooks/useVAD.ts:140-167 | A frame stores the raw volume, smooths, and decides on the new smoothed value: from `silent` it moves to `pending_speech` exactly when that value is above startThreshold, `pending_speech` falls back exactly when it is not, `speaking` moves to `pending_silence` exactly when it is at or below stopThreshold, and `pending_silence` resumes exactly when it is above stopThreshold. Its callbacks are the edge's callbacks followed by `onVolumeUpdate(smoothed)`, and it keeps the timer invariant. |
| Vad.FrameFiltered | src/hooks/useVAD.ts:140-167 | A frame's speech callbacks are exactly the ones of its edge. Its state changes are the new state if it moved, and none otherwise. |
| Vad.RunAlternates | src/hooks/useVAD.ts:71-124 | Over any frames and settings, `onSpeechStart`/`onSpeechEnd` strictly alternate. Their count is odd exactly when the run crossed between outside and inside speech. |
| Vad.RunFromSilenceStartsWithStart | src/hooks/useVAD.ts:34-39 | From the initial refs, the speech callbacks alternate beginning with `onSpeechStart`. |
| Vad.RunWalksTable | src/hooks/useVAD.ts:71-124 | Over any frames, the sequence of announced states is a walk along table edges ending in the current state. |
| Vad.RunKeepsTimers | src/hooks/useVAD.ts:71-124 | From a timer-consistent state such as the initial one, the timer invariant holds after any frames. |
| Vad.RunSmoothedInRange | src/hooks/useVAD.ts:150-157 | With non-empty buffers and factors in [0, 1), the smoothed value stays −∞ or in [−100, 0]. |
| Vad.DefaultsStayInRange | src/hooks/useVAD.ts:20-30 | Under the default settings the stop threshold is below the start threshold. With non-empty buffers the smoothed value stays in range over any frames. |
| Vad.RunStuckSpeaking | src/hooks/useVAD.ts:99-122 | A NaN smoothed value in `speaking` stays NaN, and the detector stays in `speaking` with no speech callback. |
| Vad.VadEngine.constructor | src/hooks/useVAD.ts:34-39 | A mounted hook starts silent with both volumes −∞ and both timers null. |
| Vad.VadEngine.UpdateVadState | src/hooks/useVAD.ts:71-124 | The switch on the refs produces exactly `Transition`'s new refs and callbacks. |
| Vad.VadEngine.ProcessFrame | src/hooks/useVAD.ts:140-167 | An enabled hook moves its refs as `Frame` does on `VolumeDb` of the buffer; a disabled one changes nothing and fires nothing. |
| Vad.VadEngine.SetEnabled | src/hooks/useVAD.ts:173-187 | Disabling resets state, both volumes and both timers whatever the history; enabling keeps the refs. |
| Vad.VadEngine.CurrentState | src/hooks/useVAD.ts:198 | Returns the state ref. |
| Vad.VadEngine.CurrentVolume | src/hooks/useVAD.ts:199 | Returns the latest raw volume. |
| Vad.VadEngine.SmoothedVolume | src/hooks/useVAD.ts:200 | Returns the smoothed volume. |
| Waveform.OnFrame | src/hooks/useWaveformVisualizer.ts:101-129 | Definition of the detection branch of one drawn frame; properties in `Waveform.LoudFrame`, `Waveform.QuietFrame` and `Waveform.LevelReportedFirst`. |
| Waveform.OnTimer | src/hooks/useWaveformVisualizer.ts:118-123 | Definition of the silence timeout's callback; properties in `Waveform.TimerEndsSpeech`. |
| Waveform.Cleanup | src/hooks/useWaveformVisualizer.ts:162-171 | Definition of the effect's cleanup; properties in `Waveform.CleanupClears`. |
| Waveform.Level | src/hooks/useWaveformVisualizer.ts:36-46 | The scaled level is NaN exactly for an empty buffer. Otherwise it is finite and equals `max(0, (rms − 0.001) · 100)`. |
| Waveform.CalculateRms | src/hooks/useWaveformVisualizer.ts:36-46 | The loop computes `Level`. |
| Waveform.LoudFrame | src/hooks/useWaveformVisualizer.ts:101-113 | A level above the speaking threshold marks speech and cancels the pending timeout. `onSpeakingDetected` fires exactly when speech was not yet marked; no silence callback fires. |
| Waveform.QuietFrame | src/hooks/useWaveformVisualizer.ts:114-129 | A level not above the threshold fires only the level callback. It schedules exactly one fresh timeout when speaking with none pending, and otherwise changes nothing. |
| Waveform.LevelReportedFirst | src/hooks/useWaveformVisualizer.ts:94-96 | Each frame reports its level first and only once. |
| Waveform.SilenceThresholdIgnored | src/hooks/useWaveformVisualizer.ts:114-116 | Two threshold settings with the same speaking threshold decide every frame identically. |
| Waveform.DefaultBandIsQuiet | src/hooks/useWaveformVisualizer.ts:25-28 | With the default thresholds, a level above the silence line (15) but not above the speaking line (25) is quiet: while speaking with no timeout it starts one. |
| Waveform.TimerEndsSpeech | src/hooks/useWaveformVisualizer.ts:118-123 | The pending timeout firing clears speech, the ref and the queue, and fires `onSilenceDetected`. |
| Waveform.CleanupClears | src/hooks/useWaveformVisualizer.ts:162-171 | Cleanup leaves no timeout pending and `isSpeaking` unchanged. |
| Waveform.StepKeepsValid | src/hooks/useWaveformVisualizer.ts:101-129 | Every input keeps the invariant: at most one pending timeout, the one in the ref, and only while speaking. |
| Waveform.StepDetections | src/hooks/useWaveformVisualizer.ts:101-129 | An input fires a detection callback exactly when it flips `isSpeaking`, and the callback names the new value. |
| Waveform.RunAlternates | src/hooks/useWaveformVisualizer.ts:101-129 | Over any inputs from a valid state, validity holds and detection callbacks strictly alternate. Their parity tells whether speech is marked. |
| Waveform.RunFromInitial | src/hooks/useWaveformVisualizer.ts:32-34 | From a fresh hook, detections alternate starting with `onSpeakingDetected`. |
| Waveform.WaveformDetector.constructor | src/hooks/useWaveformVisualizer.ts:32-34 | A fresh hook is not speaking and has no timeout. |
| Waveform.WaveformDetector.SetTimeout | src/hooks/useWaveformVisualizer.ts:118 | Scheduling adds one fresh id to the pending set and changes no ref. |
| Waveform.WaveformDetector.ClearTimeout | src/hooks/useWaveformVisualizer.ts:111 | Clearing removes exactly that id from the pending set. |
| Waveform.WaveformDetector.DrawFrame | src/hooks/useWaveformVisualizer.ts:91-129 | The frame step moves the refs and fires callbacks exactly as `OnFrame` on the buffer's level. |
| Waveform.WaveformDetector.FireTimer | src/hooks/useWaveformVisualizer.ts:118-123 | A timeout runs only while pending, as `OnTimer`. |
| Waveform.WaveformDetector.RunCleanup | src/hooks/useWaveformVisualizer.ts:162-171 | The cleanup moves the refs as `Cleanup`. |
| SettingsLoader.Select | src/utils/vadSettingsLoader.ts:13-26 | Definition of the format check on a parsed value; properties in `SettingsLoader.LoadNewFormat` and `SettingsLoader.LoadOldFormat`. |
| SettingsLoader.Load | src/utils/vadSettingsLoader.ts:3-43 | Definition of `loadVADSettings`; properties in `SettingsLoader.LoadNewFormat`, `SettingsLoader.LoadOldFormat`, `SettingsLoader.LoadFallsBack` and `SettingsLoader.LoadHasThresholds`. |
| SettingsLoader.SettingsValue | src/utils/vadSettingsLoader.ts:34-42 | A settings record is an object with exactly the five fields of the new format. |
| SettingsLoader.LoadNewFormat | src/utils/vadSettingsLoader.ts:13-15 | A parsed record with both `startThreshold` and `stopThreshold` defined is returned unchanged, whatever else it holds. |
| SettingsLoader.LoadOldFormat | src/utils/vadSettingsLoader.ts:18-26 | A record with `speakingThreshold` but without both new fields becomes the fixed {−16, −20, 200, 200, 0.9}, whatever its values. This equals the defaults. |
| SettingsLoader.LoadFallsBack | src/utils/vadSettingsLoader.ts:7-42 | Nothing stored, the empty string, unparsable text, `null` and an unrecognised record all give the defaults. |
| SettingsLoader.LoadHasThresholds | src/utils/vadSettingsLoader.ts:3-43 | Loading never fails. Its result has both new thresholds defined and is either the defaults or the parsed record. |
| SettingsLoader.KeyStore.constructor | src/utils/vadSettingsLoader.ts:4 | A store holds the given items. |
| SettingsLoader.KeyStore.GetItem | src/utils/vadSettingsLoader.ts:4 | A key's string is returned exactly when the key is present. |
| SettingsLoader.KeyStore.SetItem | src/utils/vadSettingsLoader.ts:47 | Writing replaces exactly that key. |
| SettingsLoader.KeyStore.SaveVadSettings | src/utils/vadSettingsLoader.ts:45-48 | Saving stores the stringified settings under `vadSettings` and changes no other key. |
| SettingsLoader.KeyStore.LoadVadSettings | src/utils/vadSettingsLoader.ts:3-43 | Loading returns `Load` of the stored item, which always has both thresholds defined. |
| SettingsLoader.SaveThenLoad | src/utils/vadSettingsLoader.ts:45-48 | Saving a new-format record then loading returns it when the JSON codec round-trips it. |
| SettingsLoader.SettingsRoundTrip | src/utils/vadSettingsLoader.ts:3-48 | Every settings record round-trips through the store under a round-tripping codec. |
| Calibration.Rms | src/components/VADCalibrationPanel.tsx:23-30 | Definition of `calculateRMS`; properties in `Calibration.RmsOfFlatLine`. |
| Calibration.RmsOfFlatLine | src/components/VADCalibrationPanel.tsx:23-30 | The square root is taken of a non-negative mean. For a root that is zero only at zero, the loudness is zero exactly when every sample is 128, the flat line. |
| Calibration.Begin | src/components/VADCalibrationPanel.tsx:34-37 | Definition of the synchronous start; properties in `Calibration.FullCalibration` and `Calibration.CancelDuringPrompt`. |
| Calibration.Granted | src/components/VADCalibrationPanel.tsx:49-59 | Definition of the resolved `getUserMedia`, followed by the first `measureEnvironment` (line 124); properties in `Calibration.CancelDuringPrompt` and `Calibration.FullCalibration`. |
| Calibration.Denied | src/components/VADCalibrationPanel.tsx:126-129 | Definition of the rejected `getUserMedia`; properties in `Calibration.CalibrationPanel.MicrophoneDenied`. |
| Calibration.CollectEnvironment | src/components/VADCalibrationPanel.tsx:62-91 | Definition of the `requestAnimationFrame` loop of `measureEnvironment` over a run of samples; properties in `Calibration.EnvironmentPhase`. |
| Calibration.CollectSpeech | src/components/VADCalibrationPanel.tsx:99-119 | Definition of the loop of `collectSpeechData` over a run of samples; properties in `Calibration.SpeechPhase`. |
| Calibration.Start | src/components/VADCalibrationPanel.tsx:32-130 | Definition of a start that is not interrupted: `Begin`, then `Granted` or `Denied`; properties in `Calibration.FullCalibration`. |
| Calibration.EnvironmentSample | src/components/VADCalibrationPanel.tsx:62-91 | Definition of one `measureEnvironment`; properties in `Calibration.EnvironmentPhase` and `Calibration.StoppedIgnoresSamples`. |
| Calibration.SpeechSample | src/components/VADCalibrationPanel.tsx:99-119 | Definition of one `collectSpeechData`; properties in `Calibration.SpeechPhase` and `Calibration.StoppedIgnoresSamples`. |
| Calibration.Stop | src/components/VADCalibrationPanel.tsx:132-152 | Definition of `stopCalibration`; properties in `Calibration.StoppedIgnoresSamples` and `Calibration.CancelDuringPrompt`. |
| Calibration.Derive | src/components/VADCalibrationPanel.tsx:158-159 | Definition of the two thresholds; properties in `Calibration.DeriveMargins` and `Calibration.DeriveMissingLevel`. |
| Calibration.Apply | src/components/VADCalibrationPanel.tsx:154-168 | Definition of the new `vadSettings`; properties in `Calibration.ApplyKeepsOtherFields` and `Calibration.AppliedThresholdsNotReadBack`. |
| Calibration.CalculateRms | src/components/VADCalibrationPanel.tsx:23-30 | The loop over a 2048-sample buffer computes `Rms`. |
| Calibration.MeanBounds | src/components/VADCalibrationPanel.tsx:76 | The average of the samples lies between their lower and upper bounds. |
| Calibration.EnvironmentPhase | src/components/VADCalibrationPanel.tsx:62-91 | Below 250 samples the phase only collects. The 250th sample records their mean as the silence level, empties the buffer, moves to `speaking` and sets the timeout. |
| Calibration.SpeechPhase | src/components/VADCalibrationPanel.tsx:93-122 | Below 150 samples the phase only collects. The 150th records their mean as the speaking level and moves to `complete`. |
| Calibration.FullCalibration | src/components/VADCalibrationPanel.tsx:32-124 | A granted start, 250 background samples and 150 speech samples leave the panel complete with both means recorded. |
| Calibration.CancelDuringPrompt | src/components/VADCalibrationPanel.tsx:32-130 | A cancel while the prompt is open, followed by the grant, leaves the panel idle and not calibrating but with an open stream and analyser. After 249 more samples it is in `speaking` with the timeout set. |
| Calibration.StoppedIgnoresSamples | src/components/VADCalibrationPanel.tsx:132-152 | Stopping from any step gives `idle`, not calibrating, and no timer, stream, context or analyser. It keeps data and samples, and later analyser callbacks do nothing. |
| Calibration.Max | src/components/VADCalibrationPanel.tsx:158-159 | `Math.max` gives NaN if an argument is NaN. Otherwise it gives the larger of two finite values. |
| Calibration.DeriveMargins | src/components/VADCalibrationPanel.tsx:158-159 | The silence threshold is `max(5, silence + 3)`. The speaking threshold is `max(that + 5, speech − 5)`, so always at least 5 above it. |
| Calibration.DeriveMissingLevel | src/components/VADCalibrationPanel.tsx:158-159 | A missing level gives NaN thresholds instead of an error. |
| Calibration.ApplyKeepsOtherFields | src/components/VADCalibrationPanel.tsx:161-165 | Applying adds or replaces exactly `silenceThreshold` and `speakingThreshold` and carries over every other field. |
| Calibration.AppliedThresholdsNotReadBack | src/components/VADCalibrationPanel.tsx:161-168 | After saving and reloading, the engine's start/stop thresholds are the record's own, or the loader's defaults. |
| Calibration.CalibrationPanel.constructor | src/components/VADCalibrationPanel.tsx:8-21 | A mounted panel is idle, with no data, no samples and no refs. |
| Calibration.CalibrationPanel.StopCalibration | src/components/VADCalibrationPanel.tsx:132-152 | Stopping moves the state as `Stop` and leaves the settings alone. |
| Calibration.CalibrationPanel.MeasureEnvironment | src/components/VADCalibrationPanel.tsx:62-91 | One background callback moves the state as `EnvironmentSample` on the buffer's RMS; without an analyser it does nothing. |
| Calibration.CalibrationPanel.CollectSpeechData | src/components/VADCalibrationPanel.tsx:99-119 | One speech callback moves the state as `SpeechSample`; without an analyser it does nothing. |
| Calibration.CalibrationPanel.BeginCalibration | src/components/VADCalibrationPanel.tsx:34-37 | Before the `await`, starting marks the panel calibrating in the `silence` step and clears data and samples. |
| Calibration.CalibrationPanel.MicrophoneGranted | src/components/VADCalibrationPanel.tsx:49-59 | When `getUserMedia` resolves, the stream, context and analyser are attached and one background sample is taken, whatever the step is by then. |
| Calibration.CalibrationPanel.MicrophoneDenied | src/components/VADCalibrationPanel.tsx:126-129 | When `getUserMedia` rejects, the panel stops. |
| Calibration.CalibrationPanel.ApplyCalibration | src/components/VADCalibrationPanel.tsx:154-171 | Without data nothing changes and nothing is saved. Otherwise the settings get the two derived thresholds, are saved under `vadSettings`, and the panel stops. |
| Match.FirstTrue | src/services/match.ts:6 | `find` gives the index of the first true guard, or none exactly when no guard is true. |
| Match.Match | src/services/match.ts:3-6 | The result is the branch of the first true guard. With none, including an empty list, it is the fallback. |
| Match.MatchOrUndefined | src/services/match.ts:5-6 | Definition of `match(l)()` with its default fallback; properties in `Match.MatchOrUndefinedCases`. |
| Match.MatchOrUndefinedCases | src/services/match.ts:5-6 | With the default fallback the result is `undefined` exactly when no guard holds. Otherwise it is the first true guard's branch. |
| Match.EarlierGuardWins | src/services/match.ts:6 | A true guard shadows every later guard and branch. |
| Match.When | src/services/match.ts:8 | `when` gives `fn()` exactly when the guard holds and `fn()` is truthy, and `false` otherwise; `false` is its own result, apart from `match`'s `undefined`. |
| Match.WhenFalseIgnoresThunk | src/services/match.ts:8 | With a false guard the thunk plays no part and the result is `false`. |
| Match.WhenAgainstSingleMatch | src/services/match.ts:3-8 | For a true guard and a truthy branch, `when` agrees with `match` over that one pair with the default fallback: both give `fn()`. They differ otherwise: a false guard gives `false` from `when` but `undefined` from `match`, and a true guard with a falsy branch gives `false` from `when` but the branch's value from `match`. |
| ArrayHandlers.Update | src/services/arrayStateHandlers.ts:15-18 | Definition of `handleUpdate`; properties in `ArrayHandlers.UpdateSpec`. |
| ArrayHandlers.Insert | src/services/arrayStateHandlers.ts:20-27 | Definition of `handleInsert`; properties in `ArrayHandlers.InsertSpec` and the lemmas after it. |
| ArrayHandlers.Remove | src/services/arrayStateHandlers.ts:29-32 | Definition of `handleRemove`; properties in `ArrayHandlers.RemoveSpec` and `ArrayHandlers.RemoveAfterInsert`. |
| ArrayHandlers.HandleMethod | src/services/arrayStateHandlers.ts:34-38 | Definition of `handleMethods`; properties in `ArrayHandlers.DispatchSpec`. |
| ArrayHandlers.Dispatch | src/services/arrayStateHandlers.ts:45-55 | Definition of the update `arrayStateHandlers` passes to `setState`; properties in `ArrayHandlers.DispatchSpec`. |
| ArrayHandlers.FlatMapAround | src/services/arrayStateHandlers.ts:18 | A `flatMap` that keeps every element but one replaces just that element's slot. |
| ArrayHandlers.UpdateSpec | src/services/arrayStateHandlers.ts:15-18 | Update preserves length, writes the value exactly at a matching index and keeps all other positions; an out-of-range index is a no-op. arrayRBoxHandlers.ts:15-18 is the same code. |
| ArrayHandlers.RemoveSpec | src/services/arrayStateHandlers.ts:29-32 | Remove at a valid index deletes exactly that element; any other index is a no-op. arrayRBoxHandlers.ts:29-32 is the same code. |
| ArrayHandlers.InsertSpec | src/services/arrayStateHandlers.ts:20-27 | Insert tries its guards in order: an empty list gives `[value]`, `len < index` appends, `index ≤ 0` prepends. A valid interior index inserts just before `prev[index]`; any other index, `len` included, is a no-op. arrayRBoxHandlers.ts:20-27 is the same code. |
| ArrayHandlers.InsertInfinityAppends | src/App.tsx:45 | Inserting with index `Infinity`, as the history does, always appends. |
| ArrayHandlers.InsertAtLengthDrops | src/services/arrayStateHandlers.ts:23-27 | On a non-empty list, inserting at `index == len` returns the list unchanged. |
| ArrayHandlers.InsertKeepsOthers | src/services/arrayStateHandlers.ts:20-27 | Every insert either leaves the list unchanged or places the value at one spot, keeping the others in order. |
| ArrayHandlers.InsertAtPosition | src/services/arrayStateHandlers.ts:20-27 | Inserting at a valid position `k`, or at 0 into an empty list, puts the value just before `prev[k]`. |
| ArrayHandlers.RemoveAfterInsert | src/services/arrayStateHandlers.ts:20-32 | Removing at the index just inserted at gives back the original list. |
| ArrayHandlers.RemoveAtPosition | src/services/arrayStateHandlers.ts:29-32 | Removing at a valid position `k` gives the list without exactly its element `k`. |
| ArrayHandlers.DispatchSpec | src/services/arrayStateHandlers.ts:34-55 | `match` over the three operation names applies exactly the named handler, and an unknown name keeps `prev`. |
| ArrayStateHandlers.HandlerApplies | src/services/arrayStateHandlers.ts:40-56 | The state after `setState` is the named operation applied to the previous state, or the previous state for an unknown name. |
| ArrayRBoxHandlers.RBox.constructor | src/services/arrayRBoxHandlers.ts:41 | A box holds its initial value. |
| ArrayRBoxHandlers.RBox.SetValue | src/services/arrayRBoxHandlers.ts:45 | `setValue` with an updater sets the value to the updater applied to the old one. |
| ArrayRBoxHandlers.Handle | src/services/arrayRBoxHandlers.ts:40-52 | The box becomes the named operation's result on its previous value, or keeps it for an unknown name. |
| ArrayRBoxHandlers.AppendHistory | src/App.tsx:45 | `insert(Infinity)` on a history box appends the entry at the end. |
| Box.Box.Map | src/lib/box.ts:13 | Definition of `map`; properties in `Box.MapLaws`. |
| Box.Box.FlatMap | src/lib/box.ts:21 | Definition of `flatMap`; properties in `Box.FlatMapLaws`. |
| Box.Box.GetValue | src/lib/box.ts:22 | Definition of `getValue`; properties in `Box.PackGetValue`. |
| Box.Apply | src/lib/box.ts:14-20 | Definition of `apply`; properties in `Box.ApplyLaws`. |
| Box.IsBox | src/lib/box.ts:36 | Definition of `isBox`; properties in `Box.IsBoxSpec`. |
| Box.PackGetValue | src/lib/box.ts:12-22 | A packed value comes back from `getValue`. |
| Box.MapLaws | src/lib/box.ts:13 | `map` applies the function to the value and satisfies the identity and composition laws. |
| Box.FlatMapLaws | src/lib/box.ts:21 | `flatMap` satisfies left identity, right identity with `pack`, and associativity. |
| Box.ApplyLaws | src/lib/box.ts:14-20 | `pack(f).apply(pack(a))` holds `f(a)`, and applying the identity function changes nothing. |
| Box.Box.FMap | src/lib/box.ts:30 | Definition of the `"<$>"` key; properties in `Box.AliasesAgree`. |
| Box.Box.Bind | src/lib/box.ts:32 | Definition of the `">>="` key; properties in `Box.AliasesAgree`. |
| Box.Ap | src/lib/box.ts:31 | Definition of the `"<*>"` key; properties in `Box.AliasesAgree`. |
| Box.AliasesAgree | src/lib/box.ts:30-32 | `"<$>"`, `">>="` and `"<*>"` behave as `map`, `flatMap` and `apply`. |
| Box.Packed | src/lib/box.ts:24-33 | Definition of the object `box` returns, as `isBox` sees it; properties in `Box.IsBoxSpec`. |
| Box.IsBoxSpec | src/lib/box.ts:36 | `isBox` holds for the object `Packed(b)` that `box` returns, for every box `b`. On any value it holds exactly for an object whose `isBox` is `true`; on `null` and `undefined` it is false without throwing. |

## Left out

- Web Audio: `getUserMedia`, `AudioContext` and the analyser are left out. Buffers of bytes are inputs. The resolution of `getUserMedia` is its own input, which can arrive in any state: `Calibration.Granted` and `Calibration.CalibrationPanel.MicrophoneGranted` for a grant, `Calibration.Denied` and `Calibration.CalibrationPanel.MicrophoneDenied` for a refusal. Only the uninterrupted composition `Calibration.Start` takes the outcome as a flag.
- Square root and logarithm: `Math.sqrt` and `20·log10(sqrt(m))` are function parameters (`root`, `decibels`), not modelled.
- Floating point: IEEE rounding is not modelled; finite numbers are exact reals.
- Scheduling: `requestAnimationFrame`, `setTimeout` and their cancellation become explicit inputs. The delays (`silenceDuration`, the 1000 ms pause before the speech phase) are not modelled: only the order of the inputs matters.
- Canvas drawing and every `console.log` call are left out: no state depends on them.
- Calibration.CalibrationPanel.MicrophoneGranted: the stream, context and analyser objects are booleans, and the closures created per start are not modelled. A stale loop from an earlier start is representable only as extra callback inputs.
- React state batching: `setCalibrationData`/`setCalibrationStep` apply immediately in the model.
- ArrayHandlers.UpdateSpec: the optional `value` of `update`/`insert` (`value!`) is always a value of the element type; `undefined` elements are not modelled.
- Waveform.WaveformDetector.DrawFrame: the effect's start guard (recording or auto mode, analyser and canvas present) is not modelled.
- Waveform.WaveformDetector.DrawFrame: `onAudioLevelUpdate` is modelled as always provided; its absence only removes the level events.
- The JSON codec: `JSON.parse`/`JSON.stringify` are function parameters, and the round-trip lemmas require the codec to round-trip the record.
- The reactive box library is not part of this model beyond `setValue` taking an updater (`src/hooks/useRBox.ts` rests on it).
- Box.ApplyLaws: the `this` binding of `apply` is the box it is called on, written as the first argument.
- Settings changes mid-run: `processFrame` captures `settings` per effect run; here every frame carries the settings in force.
- The UI components, `App.tsx` glue, the HTTP services and the WebSocket client are outside the modelled core.
