# Guzheng practice assistant — a verified model of its decision logic

This project models in Dafny the decision logic of a guzheng (Chinese zither) learning assistant.
The assistant is a WeChat mini-program with a Python analysis server. The model covers:

- **The practice page** (`pages/practice/practice.js`). This is a recorder state machine with three modes:
  audio, video and combined. Each handler and each asynchronous device callback is its own event:
  recorder stop and error, the camera's stop success, timeout and start failure, the upload settling,
  the simulated analysis finishing, and a timer tick.
  - `PracticeState` gives each event a pure step function over a snapshot of the page.
    Lemmas state the effect of each step and the outcome of whole event orders.
  - `Practice.PracticePage` is the page itself: a class with the page's fields.
    Each method is proved to take the page through exactly its step.
- **The utility helpers** (`utils/util.js`): `formatTime`, `getScoreLevel`, `formatDate` (first-occurrence
  token substitution over explicit date fields) and `throttle` (a one-field state machine with the clock
  passed in).
- **The hand analysis service** (`server/services/hand_analyzer.py`). Per-frame detection results are
  inputs. The model covers the per-finger range check, the 10-point deductions, detection-rate gating,
  score truncation and key-point sampling.
- **The audio analysis service** (`server/services/audio_analyzer.py`). The extracted features are inputs:
  pitch frames, onsets, interval deviation and RMS energy. The model covers the scoring, the issue
  escalation, the fallbacks, the weighted overall score and the issue order.
- **The video endpoint** (`server/main.py`). The model covers content-type validation, the substitution of
  a fallback result when an analyzer fails, the merge of both results with its defaults, and the weighted
  overall score.
- **Three small pages.**
  - The audio player (`pages/audio/audio.js`): play/pause toggle, clamped seeking, and load formatting.
  - The home page (`pages/index/index.js`): the greeting by hour, counter defaults, and recent sessions.
  - The profile page (`pages/profile/profile.js`): the level by practice hours, the statistics default,
    and the login update.

How numbers are represented:

- Floating-point values are Dafny `real`s.
- Python's `int()` is truncation toward zero (`Scoring.Trunc`).
- `max(0, min(100, ·))` is `Scoring.Clamp100`.
- JavaScript `String.prototype.replace` with a string pattern replaces only the first occurrence
  (`Util.ReplaceFirst`).

The outside world appears as parameters:

- clocks are parameters: elapsed milliseconds for a timer tick, the hour of day, and `Date.now()`;
- storage reads and device reports are parameters;
- upload and compression outcomes are oracles.

## Model

| member | source | states |
|---|---|---|
| Util.PadTwo | utils/util.js:9-10 | `toString().padStart(2,'0')` yields only digits that parse back to the number, exactly two characters below 100 and no truncation above |
| Util.FormatTimeShape | utils/util.js:8-12 | below 6000 seconds the text is five characters, `:` at index 2 and digits elsewhere |
| Util.FormatTimeRoundTrip | utils/util.js:8-12 | parsing the text back gives minutes = s / 60 and seconds = s % 60 < 60 with 60·m + s the input; the text is longer than five characters exactly when s ≥ 6000 (minutes are not truncated) |
| Util.GetScoreLevel | utils/util.js:37-42 | excellent iff score ≥ 90, good iff 75 ≤ score < 90, fair iff 60 ≤ score < 75, poor iff score < 60 |
| Util.GetScoreLevelMonotone | utils/util.js:37-42 | a higher score never receives a lower level |
| Util.IndexOf | utils/util.js:29 | the first occurrence of the key at or after `from`, or -1 only when there is none |
| Util.ReplaceFirstAfterPrefix | utils/util.js:29 | a string replace changes the first occurrence of the key and leaves the rest, later occurrences included, untouched |
| Util.FormatDate | utils/util.js:17-32 | the loop's result is the tokens YYYY, MM, DD, HH, mm, ss substituted in that order into the format |
| Util.FormatDateDefault | utils/util.js:17-31 | the default format gives year-MM-DD HH:mm with month + 1 and every non-year field two-digit zero-padded |
| Util.FormatDateFirstOccurrenceOnly | utils/util.js:19-30 | only the first occurrence of a token is replaced: `MM/MM` becomes the padded month followed by `/MM` |
| Util.Throttled.constructor | utils/util.js:58-59 | a fresh throttle has `lastTime` 0 and has run nothing; the interval defaults to 300 ms |
| Util.Throttled.Call | utils/util.js:60-66 | the wrapped function runs at `now` iff now − lastTime ≥ interval, and `lastTime` moves to `now` exactly when it runs |
| HandAnalyzer.FingerCn | server/services/hand_analyzer.py:215-224 | the five English finger names map to Chinese names different from themselves; any other name is returned unchanged |
| HandAnalyzer.FingerCnInjective | server/services/hand_analyzer.py:217-223 | distinct fingers get distinct Chinese names |
| HandAnalyzer.FingerIssue | server/services/hand_analyzer.py:188-209 | a finger yields an issue iff its average lies more than 15° outside its ideal range (thumb 130–160, others 140–170), and that issue is a warning |
| HandAnalyzer.FormIssuesCount | server/services/hand_analyzer.py:188-209 | at most one issue per finger, all warnings, and none exactly when every average is in range |
| HandAnalyzer.EvaluateHandForm | server/services/hand_analyzer.py:171-212 | the loop's issues are the per-finger issues over the averaged fingers, and the score is 100 − 10·(issues), which lies in [50, 100] |
| HandAnalyzer.CollectFrame | server/services/hand_analyzer.py:72-107 | one frame adds every detected hand's angles to the records and, on every tenth frame, one sample per hand |
| HandAnalyzer.AnalyzeHands | server/services/hand_analyzer.py:25-139 | the loop over frames returns exactly the report specified by `HandReport` |
| HandAnalyzer.NoFramesReport | server/services/hand_analyzer.py:39-48 | no frames: nothing detected, all counts and the score 0, exactly one error issue, no hand points |
| HandAnalyzer.UnavailableReport | server/services/hand_analyzer.py:50-60 | without MediaPipe: frameCount is the number of frames, nothing detected, score 0, exactly one info issue |
| HandAnalyzer.DetectedHasRecords | server/services/hand_analyzer.py:81-96 | every frame with hands contributes at least one angle record |
| HandAnalyzer.ReportScores | server/services/hand_analyzer.py:109-136 | handDetected iff detectedFrames > 0, the score is 0 when nothing was detected and always in [0, 100], detectedFrames ≤ frameCount |
| HandAnalyzer.ReportIssues | server/services/hand_analyzer.py:112-126 | the form issues come first, and a detection rate below 0.3 appends exactly one low-detection warning after them |
| HandAnalyzer.SamplesFromTenthFrames | server/services/hand_analyzer.py:98-107 | every sample comes from a frame whose index is a multiple of 10 and that had hands |
| HandAnalyzer.HandPointsSampled | server/services/hand_analyzer.py:98-138 | the returned hand points are at most 20, a prefix of the samples, each from a tenth frame with hands |
| HandAnalyzer.DetectionScore | server/services/hand_analyzer.py:129 | `min(100, int(rate·100))` lies in [0, 100] |
| HandAnalyzer.CombinedHandScore | server/services/hand_analyzer.py:130 | `int(0.7·angle + 0.3·detection)` of two scores in [0, 100] lies in [0, 100] |
| AudioAnalyzer.VoicedDeviations | server/services/audio_analyzer.py:77-89 | one non-negative deviation per voiced frame at most |
| AudioAnalyzer.AllVoicedDeviations | server/services/audio_analyzer.py:77-89 | when every frame is voiced, the k-th deviation is the k-th frame's absolute cents |
| AudioAnalyzer.PitchScore | server/services/audio_analyzer.py:94 | `max(0, min(100, int(100 − 2·avg)))` lies in [0, 100] |
| AudioAnalyzer.VoicedCurveAligned | server/services/audio_analyzer.py:97-106 | the corrected curve has one point per voiced frame, each carrying that frame's own deviation |
| AudioAnalyzer.VoicedCurveAsWritten | server/services/audio_analyzer.py:99-106 | the curve as written: cents_off reads the deviation at the index among all frames, or 0 past the end |
| AudioAnalyzer.AsWrittenAgreesWhenAllVoiced | server/services/audio_analyzer.py:99-106 | when every frame is voiced the curve as written equals the corrected one |
| AudioAnalyzer.AsWrittenPrefixIndependent | server/services/audio_analyzer.py:105 | the curve as written only ever reads the first len(frames) deviations |
| AudioAnalyzer.CentsOffMisindexed | server/services/audio_analyzer.py:105 | an unvoiced frame followed by a voiced one 30 cents off gives a curve point with cents_off 0 instead of 30 |
| AudioAnalyzer.Stride | server/services/audio_analyzer.py:111 | `s[::step]` of a non-empty list starts with its first element |
| AudioAnalyzer.StrideAt | server/services/audio_analyzer.py:111 | the k-th element of `s[::step]` is the element k steps into `s` |
| AudioAnalyzer.StridePosProduct | server/services/audio_analyzer.py:111 | k steps of size step reach index k·step |
| AudioAnalyzer.StrideElements | server/services/audio_analyzer.py:111 | the k-th element of `s[::step]` is `s[k·step]` |
| AudioAnalyzer.StrideLength | server/services/audio_analyzer.py:111 | `s[::step]` has at most m elements when len(s) ≤ m·step |
| AudioAnalyzer.StrideOne | server/services/audio_analyzer.py:111 | `s[::1]` is `s` |
| AudioAnalyzer.DownsampleAsWrittenTooLong | server/services/audio_analyzer.py:108-111 | with step `len // 200`, any curve of 201–399 points is left unchanged, so more than 200 points are returned |
| AudioAnalyzer.DownsampleBounded | server/services/audio_analyzer.py:108-111 | with the step rounded up, the curve has at most 200 points, keeps its first point and only contains points of the original curve |
| AudioAnalyzer.AnalyzePitch | server/services/audio_analyzer.py:67-125 | the loop over all frames, the downsampling and the in-place severity update return exactly `PitchReport`, the report as written: the curve's cents_off is read at the all-frames index (0 past the end) and the curve is thinned with step `len // 200` |
| AudioAnalyzer.AsWrittenDiffersOnlyInCents | server/services/audio_analyzer.py:99-106 | the curve as written has one point per voiced frame, with that frame's time and frequency; only cents_off can differ from the corrected curve |
| AudioAnalyzer.StrideSubset | server/services/audio_analyzer.py:111 | every element of `s[::step]` is an element of `s` |
| AudioAnalyzer.DownsampleAsWrittenBounded | server/services/audio_analyzer.py:108-111 | the downsampling as written always returns fewer than 400 points, at most 300 once the curve has 400 or more, never more points than the curve, keeps the first point and only keeps points of the curve |
| AudioAnalyzer.PitchSilent | server/services/audio_analyzer.py:79-84 | no voiced frame: score 50, an empty curve and exactly the one no-pitch warning |
| AudioAnalyzer.NoVoicedNoDeviations | server/services/audio_analyzer.py:77-79 | no voiced frame leaves no deviation |
| AudioAnalyzer.PitchVoiced | server/services/audio_analyzer.py:92-123 | at most one issue; present iff avg > 25 and an error iff avg > 40; the curve as written keeps the first voiced point, has no more points than voiced frames, has fewer than 400 points, and holds only points of the as-written curve |
| AudioAnalyzer.IntendedPitchVoiced | server/services/audio_analyzer.py:97-111 | the evidently intended report has the same score and issues and a curve of at most 200 points, each a voiced frame's point with its own deviation |
| AudioAnalyzer.Diffs | server/services/audio_analyzer.py:142 | `np.diff` has one element fewer than a non-empty input |
| AudioAnalyzer.DiffsTelescope | server/services/audio_analyzer.py:142 | the intervals sum to last onset − first onset |
| AudioAnalyzer.MeanInterval | server/services/audio_analyzer.py:145-146 | the mean interval is the onset span divided by the number of intervals |
| AudioAnalyzer.RhythmScore | server/services/audio_analyzer.py:151 | `max(0, min(100, int(100 − 100·cv)))` lies in [0, 100] |
| Scoring.Take | server/services/audio_analyzer.py:158 | `s[:n]` is the prefix of length min(n, len(s)) |
| AudioAnalyzer.SumConstant | server/services/audio_analyzer.py:142-146 | a constant list sums to its length times the constant |
| AudioAnalyzer.ConstantVariance | server/services/audio_analyzer.py:146 | a constant list has that constant as mean and variance 0 |
| AudioAnalyzer.EvenRhythmScoresFull | server/services/audio_analyzer.py:142-171 | evenly spaced onsets (std 0) score 100 with no issue |
| AudioAnalyzer.RhythmShape | server/services/audio_analyzer.py:134-171 | fewer than 3 onsets gives 60, no beats and one info issue; otherwise at most one issue, present iff cv > 0.3 and an error iff cv > 0.5, and at most 100 beats, a prefix of the onsets; cv is std over the mean span |
| AudioAnalyzer.Max | server/services/audio_analyzer.py:179 | `np.max` is an element and bounds every element |
| AudioAnalyzer.MinAbove | server/services/audio_analyzer.py:191 | the least element above the threshold is an element above it |
| AudioAnalyzer.MeanAbsDiff | server/services/audio_analyzer.py:194-195 | the mean absolute step is non-negative |
| AudioAnalyzer.SumNonNegative | server/services/audio_analyzer.py:194-195 | a non-negative list has a non-negative sum |
| AudioAnalyzer.DynamicRange | server/services/audio_analyzer.py:191 | the dynamic range lies in [0, 1) |
| AudioAnalyzer.RatioBounds | server/services/audio_analyzer.py:191 | (peak − low) / peak lies in [0, 1) for 0 < low ≤ peak |
| AudioAnalyzer.Smoothness | server/services/audio_analyzer.py:194-195 | smoothness lies in [0, 1] |
| AudioAnalyzer.DynamicsShape | server/services/audio_analyzer.py:179-216 | empty or silent RMS gives 50 with one quiet warning; otherwise the score is int(50·range + 50·smooth) in [0, 100), the flat issue appears iff range < 0.3 and the unsteady one iff smoothness < 0.4, and when both appear the flat issue comes first |
| AudioAnalyzer.SingleFrameUnsteady | server/services/audio_analyzer.py:194-208 | a single non-zero RMS frame has smoothness 0 (the mean of no differences is NaN and Python's `min(1.0, nan)` is 1.0) and is reported as unsteady |
| AudioAnalyzer.AudioOverall | server/services/audio_analyzer.py:42-46 | `int(0.4p + 0.35r + 0.25d)` of three scores in [0, 100] lies in [0, 100] |
| AudioAnalyzer.AudioOverallBetween | server/services/audio_analyzer.py:42-46 | the weighted score lies between the lowest sub-score (less one for truncation) and the highest |
| AudioAnalyzer.PitchReportInRange | server/services/audio_analyzer.py:94 | the pitch score always lies in [0, 100] |
| AudioAnalyzer.DynamicsInRange | server/services/audio_analyzer.py:198 | the dynamics score always lies in [0, 100] |
| AudioAnalyzer.AnalyzeAudio | server/services/audio_analyzer.py:11-60 | the composition returns exactly `AudioReport`, whose pitch curve is the as-written curve of `PitchReport` |
| AudioAnalyzer.AudioReportShape | server/services/audio_analyzer.py:42-60 | all scores in [0, 100], the overall between the sub-scores, and the issues are pitch ++ rhythm ++ dynamics in that order, at most four |
| VideoEndpoint.TaskId | server/main.py:66 | `task_id` is `task_` followed by the decimal digits of the millisecond clock |
| VideoEndpoint.VideoOverallBetween | server/main.py:122-125 | `int(0.6·audio + 0.4·hand)` lies in [0, 100] and between the two scores (less one for truncation) |
| VideoEndpoint.AnalyzeVideo | server/main.py:60-151 | the pipeline returns exactly `VideoResponse`: a 400, a 500 or the merged report, whose pitch curve is the audio analysis's as-written curve |
| VideoEndpoint.ContentTypeCheck | server/main.py:61-63 | the response is a 400 iff a content type is present and not one of the four video types; an absent one is accepted |
| VideoEndpoint.PreparationOutcome | server/main.py:71-88 | a failure while saving or preparing the media is a 500, and only that |
| VideoEndpoint.MergeKeepsIssues | server/main.py:119 | the merged issues are the audio issues followed by the hand issues, nothing dropped or reordered |
| VideoEndpoint.MergeDefaults | server/main.py:133-141 | fields missing from both results default to 0, false and empty lists |
| VideoEndpoint.AudioFailureFallsBack | server/main.py:92-102 | a failing audio analysis still succeeds with all-zero audio scores, empty curves, and the 音频分析失败 error issue first |
| VideoEndpoint.HandFailureFallsBack | server/main.py:106-116 | a failing hand analysis still succeeds with hand score 0, nothing detected, no points and the 手部分析失败 error issue last |
| VideoEndpoint.VideoScoreInRange | server/main.py:122-136 | the overall and hand scores of a successful response lie in [0, 100] |
| PracticeState.Loaded | pages/practice/practice.js:7-33 | the loaded page has the given mode (video by default), is neither recording nor analysing, and has no job |
| PracticeState.TimerHelpersKeepClockOk | pages/practice/practice.js:298-316 | `startTimer` issues a never-used handle that `_timer` holds; `clearTimer` stops exactly that interval and nulls `_timer` |
| PracticeState.OtherStepsKeepClock | pages/practice/practice.js:50-86 | no handler other than start, stop, cancel and unload touches the timer |
| PracticeState.TimerStepsPreserveWellFormed | pages/practice/practice.js:126-225 | starting, stopping, cancelling, the camera timeout and unloading keep the timer handles well formed |
| PracticeState.SwitchModeGuarded | pages/practice/practice.js:70-74 | switching modes changes nothing while recording, and only the mode otherwise |
| PracticeState.StartRecordingEffects | pages/practice/practice.js:126-141 | the recorder starts iff the mode is audio or combined, the camera iff video or combined with a camera context; recording from 0 with 00:00 and a fresh interval |
| PracticeState.StopRecordingEffects | pages/practice/practice.js:174-207 | the timer is cleared and recording ends; the recorder stops in audio and combined mode; the camera is untouched without a context |
| PracticeState.ResetEffects | pages/practice/practice.js:318-328 | not recording or analysing, 0 seconds, 00:00, no hand points and both file paths null; nothing else changes |
| PracticeState.CancelEffects | pages/practice/practice.js:210-225 | cancelling clears the timer, resets the state and hands the camera a callback that discards the video |
| PracticeState.AnalyzeBranch | pages/practice/practice.js:228-265 | one job is added: an upload of the stored video iff the mode records video and a video path is stored, otherwise the simulated analysis |
| PracticeState.AudioStopEffects | pages/practice/practice.js:50-58 | the recorder's stop stores path and duration and starts an analysis exactly in audio mode |
| PracticeState.VideoStopEffects | pages/practice/practice.js:183-199 | stopRecording's video callback stores video and thumbnail and starts one analysis in video mode, one in combined mode only if an audio path is stored, none otherwise; cancel's stores nothing |
| PracticeState.SettleUploadEffects | pages/practice/practice.js:234-261 | the compressed path, or the original when compression failed, is uploaded; success stores the result and opens the report, leaving the paths; failure or rejection resets the state |
| PracticeState.TimerTickDisplay | pages/practice/practice.js:298-309 | a tick shows the whole seconds elapsed, and the display parses back to elapsed / 60 minutes and elapsed % 60 < 60 seconds, five characters under 100 minutes |
| PracticeState.ClearTimerIdempotent | pages/practice/practice.js:311-316 | clearing twice is clearing once, and `_timer` ends null |
| PracticeState.UnloadEffects | pages/practice/practice.js:35-40 | unloading stops the timer and cancels a recording in progress |
| PracticeState.CombinedAudioStopFirst | pages/practice/practice.js:50-58 | in combined mode with the audio stop first, the video stop starts exactly one analysis, an upload of the video |
| PracticeState.CombinedVideoStopFirst | pages/practice/practice.js:186-198 | in combined mode with the video stop first and no stored audio path, no analysis is ever started, although both files are stored |
| PracticeState.CombinedStaleAudioPath | pages/practice/practice.js:195-197 | a successful session keeps its audio path, so a later combined video stop is analysed on the previous session's audio |
| PracticeState.CancelThenAudioStop | pages/practice/practice.js:210-225 | after a cancel in audio mode, the recorder's stop stores the path again and still starts the simulated analysis |
| PracticeState.SecondStartLeaksInterval | pages/practice/practice.js:126-141 | starting twice leaves the first interval running after the stop, and its ticks still rewrite the display |
| Practice.PracticePage.constructor | pages/practice/practice.js:7-33 | the page's initial data with the mode from the load options |
| Practice.PracticePage.StartTimer | pages/practice/practice.js:298-309 | the page's timer takes the `startTimer` step and stays well formed |
| Practice.PracticePage.ClearTimer | pages/practice/practice.js:311-316 | the page's timer takes the `clearTimer` step |
| Practice.PracticePage.TimerTick | pages/practice/practice.js:300-308 | the page takes the tick step: elapsed seconds and their mm:ss display |
| Practice.PracticePage.ResetRecordingState | pages/practice/practice.js:318-328 | the page takes the reset step |
| Practice.PracticePage.SwitchMode | pages/practice/practice.js:70-74 | the page takes the guarded mode switch |
| Practice.PracticePage.OnCameraInit | pages/practice/practice.js:77-80 | the camera is ready and its context set |
| Practice.PracticePage.OnCameraError | pages/practice/practice.js:83-86 | the camera is marked not ready |
| Practice.PracticePage.StartRecording | pages/practice/practice.js:126-171 | the page takes the start step, devices and timer included |
| Practice.PracticePage.StopRecorder | pages/practice/practice.js:181 | an active recorder is stopping |
| Practice.PracticePage.StopCamera | pages/practice/practice.js:185-199 | a recording camera is stopping with the given success callback |
| Practice.PracticePage.StopRecording | pages/practice/practice.js:174-207 | the page takes the stop step |
| Practice.PracticePage.CancelRecording | pages/practice/practice.js:210-225 | the page takes the cancel step |
| Practice.PracticePage.AnalyzeRecording | pages/practice/practice.js:228-265 | the page takes the analysis step and its branch |
| Practice.PracticePage.OnAudioStop | pages/practice/practice.js:50-58 | the page takes the recorder-stop step |
| Practice.PracticePage.OnRecorderError | pages/practice/practice.js:60-64 | the recording state is reset |
| Practice.PracticePage.OnVideoStopSuccess | pages/practice/practice.js:186-198 | the page takes the video-stop step of the pending callback |
| Practice.PracticePage.OnVideoTimeout | pages/practice/practice.js:159-162 | the camera's time limit takes the stop step |
| Practice.PracticePage.OnVideoStartFail | pages/practice/practice.js:166-169 | a camera that failed to start is not recording |
| Practice.PracticePage.SettleUpload | pages/practice/practice.js:236-261 | the page takes the settle step of an upload job |
| Practice.PracticePage.FinishSimulation | pages/practice/practice.js:271-279 | the simulation ends: not analysing, the mock report opened |
| Practice.PracticePage.OnUnload | pages/practice/practice.js:35-40 | the page takes the unload step |
| Steps.ReachedMonotone | pages/index/index.js:27-31 | a larger value never reaches fewer thresholds |
| Steps.ReachedInterval | pages/profile/profile.js:34-38 | over ascending thresholds the bucket is the half-open interval holding the value; a value equal to a threshold is in the bucket it opens |
| IndexPage.GreetingBuckets | pages/index/index.js:25-33 | each greeting is given on exactly its hours (<6, 6–11, 12–13, 14–17, ≥18) and agrees with the threshold reference, boundaries going to the later greeting |
| IndexPage.GreetingMonotone | pages/index/index.js:27-31 | a later hour never gets an earlier greeting of the day |
| IndexPage.OrZero | pages/index/index.js:46-48 | `x || 0` keeps a present number and shows 0 for a missing one |
| IndexPage.LoadedCounters | pages/index/index.js:42-50 | empty storage shows all counters 0; otherwise each counter is its stored value or 0 |
| IndexPage.RecentSessionsPrefix | pages/index/index.js:53-59 | the first min(5, n) stored sessions, in stored order |
| IndexPage.IndexPageData.constructor | pages/index/index.js:5-12 | the page's initial data |
| IndexPage.IndexPageData.SetGreeting | pages/index/index.js:25-33 | the greeting shown is the one for the hour, nothing else changes |
| IndexPage.IndexPageData.OnShow | pages/index/index.js:18-59 | user info defaults to `{}`, the counters and recent sessions are the loaded ones |
| ProfilePage.LevelBuckets | pages/profile/profile.js:33-38 | each level is given on exactly its range of hours and agrees with the threshold reference, boundaries 10/50/200/500 going to the higher level |
| ProfilePage.LevelMonotone | pages/profile/profile.js:35-38 | more practice hours never show a lower level |
| ProfilePage.MissingStatsDefault | pages/profile/profile.js:26-34 | nothing stored gives the all-zero statistics and the level 初学者 |
| ProfilePage.ProfilePageData.constructor | pages/profile/profile.js:5-15 | the page's initial data |
| ProfilePage.ProfilePageData.LoadUserData | pages/profile/profile.js:21-41 | the page shows the global login state, the user info or `{}`, the stored statistics or zeros, and their level |
| ProfilePage.ProfilePageData.HandleLogin | pages/profile/profile.js:43-63 | success logs the user in with the same user info in the global data, storage and the page; failure changes nothing |
| AppGlobals.GlobalData.constructor | app.js:2-10 | the global slots start with the given contents |
| AudioPage.DisplayName | pages/audio/audio.js:60 | a non-empty name is kept, otherwise 录音文件 |
| AudioPage.LoadedInfoShape | pages/audio/audio.js:53-65 | the duration shown is the floor of the context's and its text parses back to minutes and seconds below 60 |
| AudioPage.RewindBounds | pages/audio/audio.js:90-94 | the rewind target is never negative, five seconds back or 0, and never after the current time |
| AudioPage.ForwardBounds | pages/audio/audio.js:97-104 | the forward target never exceeds the loaded duration nor five seconds ahead, and is one of the two |
| AudioPage.ForwardBeforeCanplay | pages/audio/audio.js:97-104 | before the duration is known (still 0), forwarding seeks to the start |
| AudioPage.AudioPageData.constructor | pages/audio/audio.js:3-15 | the page's initial data, no context |
| AudioPage.AudioPageData.LoadAudio | pages/audio/audio.js:49-76 | a fresh context for the file replaces the page's, nothing shown yet |
| AudioPage.AudioPageData.OnLoad | pages/audio/audio.js:17-21 | a `filePath` option loads that file without a name |
| AudioPage.AudioPageData.OnCanplay | pages/audio/audio.js:53-65 | the page is loaded and shows the name and floored duration |
| AudioPage.AudioPageData.OnTimeUpdate | pages/audio/audio.js:67-69 | the position shown is the whole seconds played |
| AudioPage.AudioPageData.OnEnded | pages/audio/audio.js:71-73 | playback ended: not playing, position 0 |
| AudioPage.AudioPageData.Send | pages/audio/audio.js:82-109 | a command to the audio context (play, pause or seek) is appended to the context's commands; the page data is unchanged |
| AudioPage.AudioPageData.TogglePlay | pages/audio/audio.js:79-87 | nothing without a context; otherwise pause while playing, play otherwise, and `isPlaying` flips |
| AudioPage.AudioPageData.Rewind | pages/audio/audio.js:90-94 | nothing without a context; otherwise one seek to the rewind target |
| AudioPage.AudioPageData.Forward | pages/audio/audio.js:97-104 | nothing without a context; otherwise one seek to the forward target bounded by the shown duration |
| AudioPage.AudioPageData.OnSeek | pages/audio/audio.js:107-110 | nothing without a context; otherwise one seek to the slider value |
| AudioPage.AudioPageData.OnUnload | pages/audio/audio.js:23-27 | the context, if any, is destroyed |

## Left out

- Feature extraction is not modelled: librosa's pitch, onset, beat and RMS analysis, MediaPipe and OpenCV frame processing, and the finger-angle computation. Their results are inputs, as reals, and floating-point rounding is not modelled.
- `round()` calls and the f-string issue descriptions are not modelled. An issue keeps its severity, title and suggestion. The note name (`hz_to_note`) and the tempo estimate on the pitch curve are also left out.
- Video processing with ffmpeg, temporary directories, file writes and cleanup are left out. In the endpoint, saving and preparing the media is one `Result` input whose failure is the 500 path.
- The network wrappers are oracles. An upload settles as success, failure or rejection. Compression returns the compressed path, or the original one when it fails.
- The cloud functions, the mock report page and app.js launch logic are left out. The global data starts with whatever contents are given.
- Toasts, modals, the analysis progress texts and the step delays of the simulated analysis are UI and timing, and are left out. The simulated analysis is a single "finish" event.
- Camera authorisation, camera flip, song selection, `analyzeCombined` and `debounce` are not part of this model.
- The clock is a parameter: elapsed milliseconds per tick, the hour of day, and the milliseconds behind `task_id`. `setInterval` itself is modelled as a set of running handles.
- Practice.PracticePage.constructor: `options.mode` is one of the three modes. An arbitrary string from the URL is not modelled.
- HandAnalyzer.HandLabel: handedness is taken per hand, with "unknown" when it is missing. The index mismatch between hands and handedness lists that MediaPipe could produce is not modelled.
- AudioAnalyzer.RhythmReport: requires that the given interval deviation is the population standard deviation of the intervals (`IsStd`). numpy's square root is an input, not computed.
- AudioAnalyzer.DynamicsReport: requires non-negative RMS values, as an RMS is.
- AudioPage.AudioPageData.OnCanplay: requires a non-negative reported duration. A NaN or negative duration from the context is not modelled.
- AudioPage.AudioPageData.OnTimeUpdate: requires a non-negative reported current time. A NaN or negative time from the context is not modelled.
- AudioPage.AudioPageData.LoadAudio: callbacks of a context that a second load replaced are not modelled. Only the current context's events are events of the page.
- The file pickers of the audio page (`importFromFile`, `importFromRecent`) and the navigation handlers of the pages (history, report, settings) are UI. Choosing a file ends in the modelled `loadAudio` with the file's name.
- `_calculate_finger_angles` and services/video.js, services/audio.js and services/api.js are not part of this model beyond the oracles above. server/services/video_processor.py is subprocess I/O and is also left out.
- After a successful login, profile.js calls the backend login (`app.login()`), which is a network call and is left out.
- IndexPage.StoredStats: a stored counter that is falsy but present (an empty string, NaN) is not modelled. Counters are numbers or absent.

## Findings

The analysis functions and the endpoint model both defects as written. The corrected curve is `AudioAnalyzer.IntendedPitchReport`. Its properties are stated by `AudioAnalyzer.IntendedPitchVoiced` and `AudioAnalyzer.VoicedCurveAligned`.

| source | as written | input that shows it | evidently intended | confidence | as-written member | corrected member |
|---|---|---|---|---|---|---|
| server/services/audio_analyzer.py:109-111 | the pitch curve is thinned with step `len(curve) // 200`, which is 1 for 201–399 points | a curve of 300 voiced points is returned with all 300 points | at most 200 points, as the comment at line 108 says (step rounded up) | not executed | AudioAnalyzer.DownsampleAsWrittenTooLong | AudioAnalyzer.IntendedPitchVoiced |
| server/services/audio_analyzer.py:99-105 | `cents_off` reads `deviations[i]` with `i` the index among all frames, while `deviations` holds one entry per voiced frame | frames [unvoiced, voiced 30 cents off]: the single curve point gets cents_off 0 instead of 30 | each curve point carries its own frame's deviation | not executed | AudioAnalyzer.CentsOffMisindexed | AudioAnalyzer.VoicedCurveAligned |
