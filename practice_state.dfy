/**
 * pages/practice/practice.js as a state machine: a snapshot of the page's
 * `data`, its private fields, the timer, the two recording devices and what
 * the page leaves in the outside world, with one step per handler or device
 * callback.  Each asynchronous continuation (a stop callback, an upload
 * settling, the end of the simulated analysis, a timer tick) is an event of
 * its own, so any interleaving can be stated.
 */
module PracticeState {
  import opened Wrappers
  import Util
  import HandAnalyzer
  import VideoEndpoint

  /** `currentMode`. */
  datatype Mode = Audio | Video | Combined

  /** The recorder manager: idle, recording, or stopped and about to call `onStop`. */
  datatype Recorder = RecorderIdle | RecorderActive | RecorderStopping

  /** What the `success` callback passed to `cameraContext.stopRecord` does. */
  datatype StopHandler =
    | AnalyzeAfterStop(mode: Mode)  // stopRecording's callback, with the mode read at stop time
    | DiscardVideo                  // cancelRecording's empty callback

  /** The camera context's recording, as far as the page's callbacks can observe it. */
  datatype Camera = CameraIdle | CameraRecording | CameraStopping(handler: StopHandler)

  /** An analysis in flight: the compress-and-upload chain, or the simulated analysis. */
  datatype Job = UploadJob(videoPath: string) | SimulationJob

  /** How the upload's promise chain settles. */
  datatype UploadOutcome =
    | Succeeded(data: VideoEndpoint.VideoReport)  // `result && result.success`
    | Unsuccessful                                // resolved without success
    | Rejected                                    // the chain rejected

  /** The report page a navigation opens. */
  datatype Route = AnalysisReport | MockReport

  /** The page's `data`, written through `setData` (`hasCamera`: `cameraContext` is set). */
  datatype View = View(
    mode: Mode,
    isRecording: bool,
    isAnalyzing: bool,
    cameraReady: bool,
    recordingSeconds: nat,
    formatTime: string,
    handPoints: seq<HandAnalyzer.HandSample>,
    hasCamera: bool)

  /** `_audioFilePath`, `_audioDuration`, `_videoFilePath`, `_videoPoster` (None: null or never set). */
  datatype Files = Files(
    audioPath: Option<string>,
    audioDuration: Option<nat>,
    videoPath: Option<string>,
    videoPoster: Option<string>)

  /** The page's timer state. */
  datatype Clock = Clock(
    /** `_timer`: the handle of the interval the page last started, unless cleared */
    timer: Option<nat>,
    /** the interval handles still running */
    intervals: set<nat>,
    /** the handle the next `setInterval` returns */
    nextHandle: nat)

  /** The recorder manager and the camera context. */
  datatype Devices = Devices(recorder: Recorder, camera: Camera)

  /** What the page has set going or left behind outside itself. */
  datatype World = World(
    pending: seq<Job>,
    /** every path handed to `analyzeVideo`, in order */
    uploads: seq<string>,
    /** `app.globalData.lastAnalysisResult` */
    lastAnalysisResult: Option<VideoEndpoint.VideoReport>,
    navigations: seq<Route>)

  datatype Page = Page(view: View, files: Files, clock: Clock, devices: Devices, world: World)

  /** A JavaScript path value used as a condition: set and non-empty. */
  predicate Truthy(path: Option<string>) {
    path.Some? && path.value != ""
  }

  predicate RecordsAudio(m: Mode) { m == Audio || m == Combined }
  predicate RecordsVideo(m: Mode) { m == Video || m == Combined }

  /** Interval handles are positive, so a set `_timer` is truthy, and each running one was issued. */
  predicate ClockOk(c: Clock) {
    && c.nextHandle >= 1
    && (forall h :: h in c.intervals ==> 1 <= h < c.nextHandle)
    && (c.timer.Some? ==> c.timer.value in c.intervals)
  }

  predicate WellFormed(p: Page) {
    ClockOk(p.clock)
  }

  /** The page's `data` as declared. */
  const InitialView: View := View(Video, false, false, false, 0, "00:00", [], false)

  /** The page after `onLoad(options)`: `options.mode` when given, `video` otherwise. */
  function Loaded(initialMode: Option<Mode>): (p: Page)
    ensures WellFormed(p)
    ensures p.view.mode == (if initialMode.Some? then initialMode.value else Video)
    ensures !p.view.isRecording && !p.view.isAnalyzing && p.world.pending == []
  {
    Page(InitialView.(mode := initialMode.GetOr(Video)), Files(None, None, None, None), Clock(None, {}, 1),
      Devices(RecorderIdle, CameraIdle), World([], [], None, []))
  }

  // ----- timer helpers ------------------------------------------------

  /** `startTimer`: a fresh interval, remembered in `_timer`. */
  function StartTimer(c: Clock): Clock {
    Clock(Some(c.nextHandle), c.intervals + {c.nextHandle}, c.nextHandle + 1)
  }

  /** `clearTimer`: stop the interval `_timer` holds, if any, and forget it. */
  function ClearTimer(c: Clock): Clock {
    if c.timer.Some? then Clock(None, c.intervals - {c.timer.value}, c.nextHandle) else c
  }

  /** One firing of interval `handle`, `elapsedMs` after `_startTime`; a cleared interval never fires. */
  function TimerTick(p: Page, handle: nat, elapsedMs: nat): Page {
    if handle in p.clock.intervals then
      var elapsed := elapsedMs / 1000;
      p.(view := p.view.(recordingSeconds := elapsed, formatTime := Util.FormatTime(elapsed)))
    else p
  }

  // ----- handlers -----------------------------------------------------

  /** The `setData` half of `resetRecordingState`. */
  function ResetView(v: View): View {
    v.(isRecording := false, isAnalyzing := false, recordingSeconds := 0, formatTime := "00:00", handPoints := [])
  }

  /** `resetRecordingState`. */
  function ResetRecordingState(p: Page): Page {
    p.(view := ResetView(p.view), files := p.files.(audioPath := None, videoPath := None))
  }

  /** `switchMode`: ignored while recording. */
  function SwitchMode(p: Page, m: Mode): Page {
    if p.view.isRecording then p else p.(view := p.view.(mode := m))
  }

  function OnCameraInit(p: Page): Page {
    p.(view := p.view.(cameraReady := true, hasCamera := true))
  }

  /** `onCameraError` only marks the camera not ready; the context stays. */
  function OnCameraError(p: Page): Page {
    p.(view := p.view.(cameraReady := false))
  }

  /** The devices `startRecording` starts: the recorder for audio, the camera for video when there is a context. */
  function StartDevices(v: View, d: Devices): Devices {
    Devices(if RecordsAudio(v.mode) then RecorderActive else d.recorder,
            if RecordsVideo(v.mode) && v.hasCamera then CameraRecording else d.camera)
  }

  /** `startRecording`: the recorders the mode asks for, then the display and the timer. */
  function StartRecording(p: Page): Page {
    p.(view := p.view.(isRecording := true, recordingSeconds := 0, formatTime := "00:00"),
       clock := StartTimer(p.clock), devices := StartDevices(p.view, p.devices))
  }

  /** `recorderManager.stop()`. */
  function StopRecorder(d: Devices): Devices {
    if d.recorder == RecorderActive then d.(recorder := RecorderStopping) else d
  }

  /** `cameraContext.stopRecord({ success })`. */
  function StopCamera(d: Devices, h: StopHandler): Devices {
    if d.camera == CameraRecording then d.(camera := CameraStopping(h)) else d
  }

  /** The device calls shared by stop and cancel, given the camera's success callback. */
  function StopDevices(v: View, d: Devices, h: StopHandler): Devices {
    var d1 := if RecordsAudio(v.mode) then StopRecorder(d) else d;
    if RecordsVideo(v.mode) && v.hasCamera then StopCamera(d1, h) else d1
  }

  /** `stopRecording`. */
  function StopRecording(p: Page): Page {
    p.(view := p.view.(isRecording := false), clock := ClearTimer(p.clock),
       devices := StopDevices(p.view, p.devices, AnalyzeAfterStop(p.view.mode)))
  }

  /** `cancelRecording`: like a stop whose video is discarded, then a reset. */
  function CancelRecording(p: Page): Page {
    ResetRecordingState(p.(clock := ClearTimer(p.clock), devices := StopDevices(p.view, p.devices, DiscardVideo)))
  }

  /** The branch `analyzeRecording` takes: upload the stored video in video and combined mode, otherwise simulate. */
  function AnalysisJob(v: View, f: Files): Job {
    if RecordsVideo(v.mode) && Truthy(f.videoPath) then UploadJob(f.videoPath.value) else SimulationJob
  }

  /** `analyzeRecording`. */
  function AnalyzeRecording(p: Page): Page {
    p.(view := p.view.(isAnalyzing := true),
       world := p.world.(pending := p.world.pending + [AnalysisJob(p.view, p.files)]))
  }

  /** The recorder's `onStop`: keep the file, and analyse only in audio mode (the mode at callback time). */
  function OnAudioStop(p: Page, path: string, duration: nat): Page {
    if p.devices.recorder == RecorderIdle then p
    else
      var p1 := p.(devices := p.devices.(recorder := RecorderIdle),
                   files := p.files.(audioPath := Some(path), audioDuration := Some(duration)));
      if p.view.mode == Audio then AnalyzeRecording(p1) else p1
  }

  /** The recorder's `onError`. */
  function OnRecorderError(p: Page): Page {
    ResetRecordingState(p.(devices := p.devices.(recorder := RecorderIdle)))
  }

  /**
   * The `success` callback of a `stopRecord`: stopRecording's keeps the
   * video and analyses in video mode, or in combined mode once an audio
   * path is stored; cancelRecording's does nothing.
   */
  function OnVideoStopSuccess(p: Page, path: string, thumb: string): Page {
    match p.devices.camera
    case CameraStopping(h) =>
      var p1 := p.(devices := p.devices.(camera := CameraIdle));
      (match h
       case DiscardVideo => p1
       case AnalyzeAfterStop(m) =>
         var p2 := p1.(files := p1.files.(videoPath := Some(path), videoPoster := Some(thumb)));
         if m == Video then AnalyzeRecording(p2)
         else if m == Combined && Truthy(p2.files.audioPath) then AnalyzeRecording(p2)
         else p2)
    case _ => p
  }

  /** `timeoutCallback` of `startRecord`: the camera's time limit stops the whole recording. */
  function OnVideoTimeout(p: Page): Page {
    if p.devices.camera == CameraRecording then StopRecording(p) else p
  }

  /** The `fail` callback of `startRecord`: only a toast; the camera is not recording. */
  function OnVideoStartFail(p: Page): Page {
    if p.devices.camera == CameraRecording then p.(devices := p.devices.(camera := CameraIdle)) else p
  }

  /** `s` without its i-th element. */
  function RemoveAt<T>(s: seq<T>, i: nat): (r: seq<T>)
    requires i < |s|
    ensures |r| == |s| - 1
  {
    s[..i] + s[i + 1..]
  }

  /** The world once upload job `i` settles, before the outcome is looked at. */
  function Uploaded(w: World, i: nat, compressed: Option<string>): World
    requires i < |w.pending| && w.pending[i].UploadJob?
  {
    w.(pending := RemoveAt(w.pending, i), uploads := w.uploads + [compressed.GetOr(w.pending[i].videoPath)])
  }

  /**
   * The upload chain of job `i` settles: the compressed path, or the original
   * when compression failed, was uploaded; success stores the result and
   * opens the report, anything else resets the recording state.
   */
  function SettleUpload(p: Page, i: nat, compressed: Option<string>, outcome: UploadOutcome): Page {
    if i < |p.world.pending| && p.world.pending[i].UploadJob? then
      var w1 := Uploaded(p.world, i, compressed);
      match outcome
      case Succeeded(data) =>
        p.(view := p.view.(isAnalyzing := false),
           world := w1.(lastAnalysisResult := Some(data), navigations := w1.navigations + [AnalysisReport]))
      case _ => ResetRecordingState(p.(world := w1))
    else p
  }

  /** The last step of `simulateAnalysis` for job `i`: stop analysing and open the mock report. */
  function FinishSimulation(p: Page, i: nat): Page {
    if i < |p.world.pending| && p.world.pending[i] == SimulationJob then
      p.(view := p.view.(isAnalyzing := false),
         world := p.world.(pending := RemoveAt(p.world.pending, i), navigations := p.world.navigations + [MockReport]))
    else p
  }

  /** `onUnload`. */
  function OnUnload(p: Page): Page {
    var p1 := p.(clock := ClearTimer(p.clock));
    if p1.view.isRecording then CancelRecording(p1) else p1
  }

  // ----- properties of single steps ----------------------------------

  /**
   * `startTimer` issues a handle never issued before and keeps the handles
   * well formed; `clearTimer` stops exactly the interval `_timer` held.
   */
  lemma TimerHelpersKeepClockOk(c: Clock)
    requires ClockOk(c)
    ensures ClockOk(StartTimer(c)) && ClockOk(ClearTimer(c))
    ensures c.nextHandle !in c.intervals && StartTimer(c).timer == Some(c.nextHandle)
    ensures StartTimer(c).intervals == c.intervals + {c.nextHandle}
    ensures ClearTimer(c).timer == None
    ensures c.timer.Some? ==> ClearTimer(c).intervals == c.intervals - {c.timer.value}
    ensures c.timer == None ==> ClearTimer(c) == c
  {
  }

  /** Only starting, stopping, cancelling and unloading touch the timer. */
  lemma OtherStepsKeepClock(p: Page, m: Mode, path: string, thumb: string, n: nat, i: nat,
                            compressed: Option<string>, outcome: UploadOutcome)
    ensures TimerTick(p, n, n).clock == p.clock && ResetRecordingState(p).clock == p.clock
    ensures SwitchMode(p, m).clock == p.clock && OnCameraInit(p).clock == p.clock && OnCameraError(p).clock == p.clock
    ensures AnalyzeRecording(p).clock == p.clock && OnAudioStop(p, path, n).clock == p.clock
    ensures OnRecorderError(p).clock == p.clock && OnVideoStopSuccess(p, path, thumb).clock == p.clock
    ensures OnVideoStartFail(p).clock == p.clock
    ensures SettleUpload(p, i, compressed, outcome).clock == p.clock && FinishSimulation(p, i).clock == p.clock
  {
  }

  /** The steps that touch the timer keep it well formed. */
  lemma TimerStepsPreserveWellFormed(p: Page)
    requires WellFormed(p)
    ensures WellFormed(StartRecording(p)) && WellFormed(StopRecording(p)) && WellFormed(CancelRecording(p))
    ensures WellFormed(OnVideoTimeout(p)) && WellFormed(OnUnload(p))
  {
    TimerHelpersKeepClockOk(p.clock);
    TimerHelpersKeepClockOk(ClearTimer(p.clock));
  }

  /** `switchMode` changes nothing while recording, and only the mode otherwise. */
  lemma SwitchModeGuarded(p: Page, m: Mode)
    ensures p.view.isRecording ==> SwitchMode(p, m) == p
    ensures !p.view.isRecording ==> SwitchMode(p, m).view.mode == m && SwitchMode(p, m).(view := p.view) == p
  {
  }

  /**
   * `startRecording` starts the recorder exactly in audio and combined mode,
   * the camera exactly in video and combined mode when there is a camera
   * context, and a fresh interval that `_timer` now holds.
   */
  lemma StartRecordingEffects(p: Page)
    requires WellFormed(p)
    ensures var r := StartRecording(p);
      && (RecordsAudio(p.view.mode) ==> r.devices.recorder == RecorderActive)
      && (!RecordsAudio(p.view.mode) ==> r.devices.recorder == p.devices.recorder)
      && (RecordsVideo(p.view.mode) && p.view.hasCamera ==> r.devices.camera == CameraRecording)
      && (!(RecordsVideo(p.view.mode) && p.view.hasCamera) ==> r.devices.camera == p.devices.camera)
      && r.view.isRecording && r.view.recordingSeconds == 0 && r.view.formatTime == "00:00"
      && r.clock.timer == Some(p.clock.nextHandle) && p.clock.nextHandle !in p.clock.intervals
      && r.clock.intervals == p.clock.intervals + {p.clock.nextHandle}
      && r.view.mode == p.view.mode && r.files == p.files && r.world == p.world
  {
    TimerHelpersKeepClockOk(p.clock);
  }

  /**
   * `stopRecording` always clears the timer and ends not recording; it stops
   * the recorder in audio and combined mode, and never touches the camera
   * without a camera context.
   */
  lemma StopRecordingEffects(p: Page)
    requires WellFormed(p)
    ensures var r := StopRecording(p);
      && r.clock.timer == None && !r.view.isRecording
      && (p.clock.timer.Some? ==> p.clock.timer.value !in r.clock.intervals)
      && r.clock.intervals <= p.clock.intervals
      && (!p.view.hasCamera ==> r.devices.camera == p.devices.camera)
      && (RecordsAudio(p.view.mode) && p.devices.recorder == RecorderActive ==> r.devices.recorder == RecorderStopping)
      && (!RecordsAudio(p.view.mode) ==> r.devices.recorder == p.devices.recorder)
      && (RecordsVideo(p.view.mode) && p.view.hasCamera && p.devices.camera == CameraRecording ==>
            r.devices.camera == CameraStopping(AnalyzeAfterStop(p.view.mode)))
      && r.files == p.files && r.world == p.world
  {
    TimerHelpersKeepClockOk(p.clock);
  }

  /** `resetRecordingState` (after a cancel, a recorder error or a failed analysis). */
  lemma ResetEffects(p: Page)
    ensures var r := ResetRecordingState(p);
      && !r.view.isRecording && !r.view.isAnalyzing && r.view.recordingSeconds == 0 && r.view.formatTime == "00:00"
      && r.view.handPoints == [] && r.files.audioPath == None && r.files.videoPath == None
      && r.view.mode == p.view.mode && r.clock == p.clock && r.devices == p.devices && r.world == p.world
  {
  }

  /**
   * `cancelRecording` clears the timer, resets the recording state and
   * discards the video: the camera's stop callback will keep no file.
   */
  lemma CancelEffects(p: Page)
    ensures var r := CancelRecording(p);
      && r.clock.timer == None && !r.view.isRecording && !r.view.isAnalyzing
      && r.files.audioPath == None && r.files.videoPath == None
      && (RecordsVideo(p.view.mode) && p.view.hasCamera && p.devices.camera == CameraRecording ==>
            r.devices.camera == CameraStopping(DiscardVideo))
      && (RecordsAudio(p.view.mode) && p.devices.recorder == RecorderActive ==> r.devices.recorder == RecorderStopping)
  {
  }

  /**
   * `analyzeRecording` uploads exactly when the mode records video and a
   * video path is stored, and uploads that path; otherwise it simulates.
   */
  lemma AnalyzeBranch(p: Page)
    ensures var r := AnalyzeRecording(p);
      var n := |p.world.pending|;
      && r.view.isAnalyzing && |r.world.pending| == n + 1 && r.world.pending[..n] == p.world.pending
      && (r.world.pending[n].UploadJob? <==> RecordsVideo(p.view.mode) && Truthy(p.files.videoPath))
      && (r.world.pending[n].UploadJob? ==> r.world.pending[n].videoPath == p.files.videoPath.value)
      && (r.world.pending[n] == SimulationJob <==> !(RecordsVideo(p.view.mode) && Truthy(p.files.videoPath)))
  {
  }

  /**
   * The recorder's `onStop` stores the path and duration, and starts an
   * analysis exactly when the page is in audio mode.
   */
  lemma AudioStopEffects(p: Page, path: string, duration: nat)
    requires p.devices.recorder != RecorderIdle
    ensures var r := OnAudioStop(p, path, duration);
      && r.files.audioPath == Some(path) && r.files.audioDuration == Some(duration)
      && r.devices.recorder == RecorderIdle
      && (p.view.mode == Audio ==> |r.world.pending| == |p.world.pending| + 1 && r.view.isAnalyzing)
      && (p.view.mode != Audio ==> r.world.pending == p.world.pending && r.view.isAnalyzing == p.view.isAnalyzing)
  {
  }

  /**
   * stopRecording's video callback stores the video and thumbnail; it starts
   * one analysis in video mode, one in combined mode only if an audio path
   * is already stored, and none otherwise.  cancelRecording's stores nothing.
   */
  lemma VideoStopEffects(p: Page, path: string, thumb: string)
    requires p.devices.camera.CameraStopping?
    ensures var r := OnVideoStopSuccess(p, path, thumb);
      && r.devices.camera == CameraIdle
      && (p.devices.camera.handler == DiscardVideo ==> r == p.(devices := p.devices.(camera := CameraIdle)))
      && (p.devices.camera.handler.AnalyzeAfterStop? ==>
            var m := p.devices.camera.handler.mode;
            var analyses := if m == Video || (m == Combined && Truthy(p.files.audioPath)) then 1 else 0;
            && r.files.videoPath == Some(path) && r.files.videoPoster == Some(thumb)
            && |r.world.pending| == |p.world.pending| + analyses
            && r.world.pending[..|p.world.pending|] == p.world.pending)
  {
  }

  /**
   * An upload settling: the compressed path (or the original one when
   * compression failed) was uploaded; success keeps the result, opens the
   * analysis report and leaves the stored paths alone; any other outcome
   * ends analysing with the recording state reset and nothing stored.
   */
  lemma SettleUploadEffects(p: Page, i: nat, compressed: Option<string>, outcome: UploadOutcome)
    requires i < |p.world.pending| && p.world.pending[i].UploadJob?
    ensures var r := SettleUpload(p, i, compressed, outcome);
      && !r.view.isAnalyzing && |r.world.pending| == |p.world.pending| - 1
      && r.world.uploads == p.world.uploads + [if compressed.Some? then compressed.value else p.world.pending[i].videoPath]
      && (outcome.Succeeded? ==>
            && r.world.lastAnalysisResult == Some(outcome.data)
            && r.world.navigations == p.world.navigations + [AnalysisReport]
            && r.files == p.files)
      && (!outcome.Succeeded? ==>
            && !r.view.isRecording && r.view.recordingSeconds == 0 && r.view.formatTime == "00:00"
            && r.view.handPoints == [] && r.files.audioPath == None && r.files.videoPath == None
            && r.world.lastAnalysisResult == p.world.lastAnalysisResult
            && r.world.navigations == p.world.navigations)
  {
  }

  /**
   * A tick shows the whole seconds elapsed as zero-padded mm:ss: parsing the
   * text back gives elapsed / 60 minutes and elapsed % 60 < 60 seconds, and
   * under 100 minutes it is exactly five characters.
   */
  lemma TimerTickDisplay(p: Page, handle: nat, elapsedMs: nat)
    requires handle in p.clock.intervals
    ensures var r := TimerTick(p, handle, elapsedMs);
      var s := elapsedMs / 1000;
      && r.view.recordingSeconds == s
      && Util.ParseClock(r.view.formatTime) == Some((s / 60, s % 60))
      && s % 60 < 60 && 60 * (s / 60) + s % 60 == s
      && (s < 6000 ==> |r.view.formatTime| == 5 && r.view.formatTime[2] == ':')
  {
    var s := elapsedMs / 1000;
    Util.FormatTimeRoundTrip(s);
    if s < 6000 {
      Util.FormatTimeShape(s);
    }
  }

  /** `clearTimer` is idempotent and leaves `_timer` null. */
  lemma ClearTimerIdempotent(c: Clock)
    ensures ClearTimer(c).timer == None
    ensures ClearTimer(ClearTimer(c)) == ClearTimer(c)
  {
  }

  /** `onUnload` stops the timer, and a recording in progress is cancelled. */
  lemma UnloadEffects(p: Page)
    ensures OnUnload(p).clock.timer == None
    ensures p.view.isRecording ==>
      !OnUnload(p).view.isRecording && OnUnload(p).files.audioPath == None && OnUnload(p).files.videoPath == None
    ensures !p.view.isRecording ==> OnUnload(p) == p.(clock := ClearTimer(p.clock))
  {
  }

  // ----- event orders -------------------------------------------------

  /**
   * Combined mode, the audio stop arriving first: the video callback finds
   * the audio path and starts exactly one analysis, an upload of the video.
   */
  lemma CombinedAudioStopFirst(p0: Page, audio: string, duration: nat, video: string, thumb: string)
    requires p0.view.mode == Combined && p0.view.hasCamera && audio != "" && video != ""
    ensures var p1 := StopRecording(StartRecording(p0));
      var p2 := OnAudioStop(p1, audio, duration);
      var p3 := OnVideoStopSuccess(p2, video, thumb);
      && p2.world.pending == p0.world.pending
      && p3.world.pending == p0.world.pending + [UploadJob(video)]
      && p3.view.isAnalyzing
  {
  }

  /**
   * Combined mode, the video stop arriving first on a page with no audio
   * path stored: neither callback starts an analysis, although both files
   * end up stored.
   */
  lemma CombinedVideoStopFirst(p0: Page, audio: string, duration: nat, video: string, thumb: string)
    requires p0.view.mode == Combined && p0.view.hasCamera && !Truthy(p0.files.audioPath)
    ensures var p1 := StopRecording(StartRecording(p0));
      var p2 := OnVideoStopSuccess(p1, video, thumb);
      var p3 := OnAudioStop(p2, audio, duration);
      && p3.world.pending == p0.world.pending
      && p3.view.isAnalyzing == p0.view.isAnalyzing
      && p3.files.audioPath == Some(audio) && p3.files.videoPath == Some(video)
  {
  }

  /**
   * Only a reset clears `_audioFilePath`, and a successful analysis does not
   * reset: a later combined recording whose video stops first is then
   * analysed on the strength of the previous session's audio path.
   */
  lemma CombinedStaleAudioPath(p0: Page, video: string, thumb: string)
    requires p0.view.mode == Combined && p0.view.hasCamera && Truthy(p0.files.audioPath) && video != ""
    ensures var p1 := StopRecording(StartRecording(p0));
      var p2 := OnVideoStopSuccess(p1, video, thumb);
      && p2.world.pending == p0.world.pending + [UploadJob(video)]
      && p2.files.audioPath == p0.files.audioPath
  {
  }

  /**
   * Cancelling in audio mode stops the recorder; its `onStop` then stores
   * the path again and still starts the (simulated) analysis.
   */
  lemma CancelThenAudioStop(p0: Page, path: string, duration: nat)
    requires p0.view.mode == Audio && p0.devices.recorder == RecorderActive
    ensures var p1 := CancelRecording(p0);
      var p2 := OnAudioStop(p1, path, duration);
      && !p1.view.isRecording && p1.files.audioPath == None
      && p2.files.audioPath == Some(path) && p2.view.isAnalyzing
      && p2.world.pending == p0.world.pending + [SimulationJob]
  {
  }

  /**
   * `startRecording` does not clear a running timer: starting twice and
   * stopping leaves the first interval running, and its ticks keep
   * rewriting the display of a page that is no longer recording.
   */
  lemma SecondStartLeaksInterval(p0: Page, elapsedMs: nat)
    requires WellFormed(p0)
    ensures var p1 := StartRecording(p0);
      var p2 := StopRecording(StartRecording(p1));
      var p3 := TimerTick(p2, p0.clock.nextHandle, elapsedMs);
      && p2.clock.timer == None && !p2.view.isRecording
      && p0.clock.nextHandle in p2.clock.intervals
      && p3.view.recordingSeconds == elapsedMs / 1000 && !p3.view.isRecording
  {
  }
}
