/**
 * pages/practice/practice.js as the page object itself: its `data`, its
 * private fields and the devices it drives are fields, and every handler or
 * device callback is a method proved to take the page exactly one step of
 * the state machine in PracticeState.
 */
module Practice {
  import opened Wrappers
  import Util
  import VideoEndpoint
  import PS = PracticeState

  class PracticePage {
    /** `this.data`, replaced field-wise by `setData` */
    var data: PS.View
    var audioFilePath: Option<string>
    var audioDuration: Option<nat>
    var videoFilePath: Option<string>
    var videoPoster: Option<string>
    var timer: Option<nat>
    /** the interval handles still running */
    var intervals: set<nat>
    /** the handle the next `setInterval` returns */
    var nextHandle: nat
    var recorder: PS.Recorder
    var camera: PS.Camera
    /** analyses in flight */
    var pending: seq<PS.Job>
    var uploads: seq<string>
    var lastAnalysisResult: Option<VideoEndpoint.VideoReport>
    var navigations: seq<PS.Route>

    /** The page as a value of the state machine. */
    function Snapshot(): PS.Page
      reads this
    {
      PS.Page(data, PS.Files(audioFilePath, audioDuration, videoFilePath, videoPoster),
        PS.Clock(timer, intervals, nextHandle), PS.Devices(recorder, camera),
        PS.World(pending, uploads, lastAnalysisResult, navigations))
    }

    /** The timer handles are well formed. */
    ghost predicate Valid()
      reads this
    {
      PS.WellFormed(Snapshot())
    }

    /** The page's initial `data` and `onLoad(options)`. */
    constructor (initialMode: Option<PS.Mode>)
      ensures Snapshot() == PS.Loaded(initialMode)
      ensures Valid()
    {
      data := PS.InitialView.(mode := initialMode.GetOr(PS.Video));
      audioFilePath, audioDuration, videoFilePath, videoPoster := None, None, None, None;
      timer, intervals, nextHandle := None, {}, 1;
      recorder, camera := PS.RecorderIdle, PS.CameraIdle;
      pending, uploads, lastAnalysisResult, navigations := [], [], None, [];
    }

    // ----- timer ------------------------------------------------------

    /** `startTimer`. */
    method StartTimer()
      requires Valid()
      modifies this
      ensures Snapshot() == old(Snapshot()).(clock := PS.StartTimer(old(Snapshot()).clock))
      ensures Valid()
    {
      PS.TimerHelpersKeepClockOk(Snapshot().clock);
      timer := Some(nextHandle);
      intervals := intervals + {nextHandle};
      nextHandle := nextHandle + 1;
    }

    /** `clearTimer`. */
    method ClearTimer()
      requires Valid()
      modifies this
      ensures Snapshot() == old(Snapshot()).(clock := PS.ClearTimer(old(Snapshot()).clock))
      ensures Valid()
    {
      PS.TimerHelpersKeepClockOk(Snapshot().clock);
      if timer.Some? {
        intervals := intervals - {timer.value};
        timer := None;
      }
    }

    /** One firing of the interval callback. */
    method TimerTick(handle: nat, elapsedMs: nat)
      requires Valid()
      modifies this
      ensures Snapshot() == PS.TimerTick(old(Snapshot()), handle, elapsedMs)
      ensures Valid()
    {
      if handle in intervals {
        var elapsed := elapsedMs / 1000;
        var minutes := Util.PadTwo(elapsed / 60);
        var seconds := Util.PadTwo(elapsed % 60);
        data := data.(recordingSeconds := elapsed, formatTime := minutes + ":" + seconds);
      }
    }

    // ----- handlers ---------------------------------------------------

    /** `resetRecordingState`. */
    method ResetRecordingState()
      requires Valid()
      modifies this
      ensures Snapshot() == PS.ResetRecordingState(old(Snapshot()))
      ensures Valid()
    {
      data := data.(isRecording := false, isAnalyzing := false, recordingSeconds := 0, formatTime := "00:00",
                    handPoints := []);
      audioFilePath := None;
      videoFilePath := None;
    }

    /** `switchMode`. */
    method SwitchMode(m: PS.Mode)
      requires Valid()
      modifies this
      ensures Snapshot() == PS.SwitchMode(old(Snapshot()), m)
      ensures Valid()
    {
      if data.isRecording {
        return;
      }
      data := data.(mode := m);
    }

    /** `onCameraInit`. */
    method OnCameraInit()
      requires Valid()
      modifies this
      ensures Snapshot() == PS.OnCameraInit(old(Snapshot()))
      ensures Valid()
    {
      data := data.(cameraReady := true, hasCamera := true);
    }

    /** `onCameraError`. */
    method OnCameraError()
      requires Valid()
      modifies this
      ensures Snapshot() == PS.OnCameraError(old(Snapshot()))
      ensures Valid()
    {
      data := data.(cameraReady := false);
    }

    /** `startRecording`, with `startAudioRecording` and `startVideoRecording` inlined. */
    method StartRecording()
      requires Valid()
      modifies this
      ensures Snapshot() == PS.StartRecording(old(Snapshot()))
      ensures Valid()
    {
      var currentMode := data.mode;
      if currentMode == PS.Audio || currentMode == PS.Combined {
        recorder := PS.RecorderActive;
      }
      if (currentMode == PS.Video || currentMode == PS.Combined) && data.hasCamera {
        camera := PS.CameraRecording;
      }
      data := data.(isRecording := true, recordingSeconds := 0, formatTime := "00:00");
      StartTimer();
    }

    /** `recorderManager.stop()`. */
    method StopRecorder()
      modifies this
      ensures Snapshot() == old(Snapshot()).(devices := PS.StopRecorder(old(Snapshot()).devices))
    {
      if recorder == PS.RecorderActive {
        recorder := PS.RecorderStopping;
      }
    }

    /** `cameraContext.stopRecord` with the given success callback. */
    method StopCamera(h: PS.StopHandler)
      modifies this
      ensures Snapshot() == old(Snapshot()).(devices := PS.StopCamera(old(Snapshot()).devices, h))
    {
      if camera == PS.CameraRecording {
        camera := PS.CameraStopping(h);
      }
    }

    /** `stopRecording`. */
    method StopRecording()
      requires Valid()
      modifies this
      ensures Snapshot() == PS.StopRecording(old(Snapshot()))
      ensures Valid()
    {
      var currentMode := data.mode;
      ClearTimer();
      if currentMode == PS.Audio || currentMode == PS.Combined {
        StopRecorder();
      }
      if (currentMode == PS.Video || currentMode == PS.Combined) && data.hasCamera {
        StopCamera(PS.AnalyzeAfterStop(currentMode));
      }
      data := data.(isRecording := false);
    }

    /** `cancelRecording`. */
    method CancelRecording()
      requires Valid()
      modifies this
      ensures Snapshot() == PS.CancelRecording(old(Snapshot()))
      ensures Valid()
    {
      var currentMode := data.mode;
      ClearTimer();
      if currentMode == PS.Audio || currentMode == PS.Combined {
        StopRecorder();
      }
      if (currentMode == PS.Video || currentMode == PS.Combined) && data.hasCamera {
        StopCamera(PS.DiscardVideo);
      }
      ResetRecordingState();
    }

    /** `analyzeRecording`: the branch it takes, as a job left in flight. */
    method AnalyzeRecording()
      requires Valid()
      modifies this
      ensures Snapshot() == PS.AnalyzeRecording(old(Snapshot()))
      ensures Valid()
    {
      data := data.(isAnalyzing := true);
      var currentMode := data.mode;
      if (currentMode == PS.Video || currentMode == PS.Combined) && videoFilePath.Some? && videoFilePath.value != "" {
        pending := pending + [PS.UploadJob(videoFilePath.value)];
        return;
      }
      pending := pending + [PS.SimulationJob];
    }

    /** The recorder's `onStop` callback. */
    method OnAudioStop(path: string, duration: nat)
      requires Valid()
      modifies this
      ensures Snapshot() == PS.OnAudioStop(old(Snapshot()), path, duration)
      ensures Valid()
    {
      if recorder == PS.RecorderIdle {
        return;
      }
      recorder := PS.RecorderIdle;
      audioFilePath := Some(path);
      audioDuration := Some(duration);
      if data.mode == PS.Audio {
        AnalyzeRecording();
      }
    }

    /** The recorder's `onError` callback. */
    method OnRecorderError()
      requires Valid()
      modifies this
      ensures Snapshot() == PS.OnRecorderError(old(Snapshot()))
      ensures Valid()
    {
      recorder := PS.RecorderIdle;
      ResetRecordingState();
    }

    /** The `success` callback of the pending `stopRecord`. */
    method OnVideoStopSuccess(path: string, thumb: string)
      requires Valid()
      modifies this
      ensures Snapshot() == PS.OnVideoStopSuccess(old(Snapshot()), path, thumb)
      ensures Valid()
    {
      if !camera.CameraStopping? {
        return;
      }
      var handler := camera.handler;
      camera := PS.CameraIdle;
      if handler.AnalyzeAfterStop? {
        var stopMode := handler.mode;
        videoFilePath := Some(path);
        videoPoster := Some(thumb);
        if stopMode == PS.Video {
          AnalyzeRecording();
        }
        if stopMode == PS.Combined && audioFilePath.Some? && audioFilePath.value != "" {
          AnalyzeRecording();
        }
      }
    }

    /** `timeoutCallback` of `startRecord`. */
    method OnVideoTimeout()
      requires Valid()
      modifies this
      ensures Snapshot() == PS.OnVideoTimeout(old(Snapshot()))
      ensures Valid()
    {
      if camera == PS.CameraRecording {
        StopRecording();
      }
    }

    /** The `fail` callback of `startRecord`. */
    method OnVideoStartFail()
      requires Valid()
      modifies this
      ensures Snapshot() == PS.OnVideoStartFail(old(Snapshot()))
      ensures Valid()
    {
      if camera == PS.CameraRecording {
        camera := PS.CameraIdle;
      }
    }

    /** The upload chain of job `i` settles. */
    method SettleUpload(i: nat, compressed: Option<string>, outcome: PS.UploadOutcome)
      requires Valid()
      modifies this
      ensures Snapshot() == PS.SettleUpload(old(Snapshot()), i, compressed, outcome)
      ensures Valid()
    {
      if !(i < |pending| && pending[i].UploadJob?) {
        return;
      }
      var original := pending[i].videoPath;
      pending := PS.RemoveAt(pending, i);
      uploads := uploads + [compressed.GetOr(original)];
      data := data.(isAnalyzing := false);
      if outcome.Succeeded? {
        lastAnalysisResult := Some(outcome.data);
        navigations := navigations + [PS.AnalysisReport];
      } else {
        ResetRecordingState();
      }
    }

    /** The simulated analysis of job `i` reaches its end. */
    method FinishSimulation(i: nat)
      requires Valid()
      modifies this
      ensures Snapshot() == PS.FinishSimulation(old(Snapshot()), i)
      ensures Valid()
    {
      if i < |pending| && pending[i] == PS.SimulationJob {
        pending := PS.RemoveAt(pending, i);
        data := data.(isAnalyzing := false);
        navigations := navigations + [PS.MockReport];
      }
    }

    /** `onUnload`. */
    method OnUnload()
      requires Valid()
      modifies this
      ensures Snapshot() == PS.OnUnload(old(Snapshot()))
      ensures Valid()
    {
      ClearTimer();
      if data.isRecording {
        CancelRecording();
      }
    }
  }
}
