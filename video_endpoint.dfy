/**
 * server/main.py, `POST /api/analyze/video`: the content-type check, the
 * two analyses with their exception fallbacks, and the merge of their
 * results into one response.  Saving the upload, probing its duration and
 * extracting the audio track and the frames are one abstract preparation
 * step whose outcome is an input; so is the clock.
 */
module VideoEndpoint {
  import opened Wrappers
  import opened Scoring
  import Util
  import HandAnalyzer
  import AudioAnalyzer

  const AllowedTypes: seq<string> := ["video/mp4", "video/quicktime", "video/x-msvideo", "video/webm"]

  /** What the preparation steps yield when none of them raises. */
  datatype Media = Media(
    duration: real,
    /** librosa's view of the extracted audio, or the message `analyze_audio` raised */
    audio: Result<AudioAnalyzer.AudioSignal, string>,
    /** the processed frames, or the message `analyze_hands` raised */
    frames: Result<seq<HandAnalyzer.Frame>, string>,
    mediapipeAvailable: bool)

  /** The audio sub-result as a dictionary: a field may be absent. */
  datatype AudioPart = AudioPart(
    pitchAccuracy: Option<int>,
    rhythmAccuracy: Option<int>,
    dynamics: Option<int>,
    overallScore: Option<int>,
    pitchCurve: Option<seq<AudioAnalyzer.CurvePoint>>,
    beatAlignment: Option<seq<real>>,
    issues: Option<seq<Issue>>)

  /** The hand sub-result as a dictionary (the fields the merge reads). */
  datatype HandPart = HandPart(
    handDetected: Option<bool>,
    overallScore: Option<int>,
    issues: Option<seq<Issue>>,
    handPoints: Option<seq<HandAnalyzer.HandSample>>)

  /** The `data` object of a successful response (`success` is always true). */
  datatype VideoReport = VideoReport(
    taskId: string,
    duration: real,
    overallScore: int,
    pitchAccuracy: int,
    rhythmAccuracy: int,
    dynamics: int,
    handScore: int,
    handDetected: bool,
    pitchCurve: seq<AudioAnalyzer.CurvePoint>,
    beatAlignment: seq<real>,
    handPoints: seq<HandAnalyzer.HandSample>,
    issues: seq<Issue>)

  /** An `HTTPException`: its status code and detail text. */
  datatype HttpError = HttpError(status: nat, detail: string)

  const AudioFailedTitle: string := "音频分析失败"
  const HandFailedTitle: string := "手部分析失败"

  /** `file.content_type and file.content_type not in allowed_types`: a missing or empty type passes. */
  predicate RejectedType(contentType: Option<string>) {
    contentType.Some? && contentType.value != "" && contentType.value !in AllowedTypes
  }

  /** `f"task_{int(time.time() * 1000)}"`, with the clock in milliseconds as an input. */
  function TaskId(nowMs: nat): (id: string)
    ensures |id| > 5 && id[..5] == "task_"
    ensures Util.AllDigits(id[5..]) && Util.ParseNat(id[5..]) == nowMs
  {
    Util.ParseNatToString(nowMs);
    var id := "task_" + Util.NatToString(nowMs);
    assert id[5..] == Util.NatToString(nowMs);
    id
  }

  /** Every field of a finished audio analysis is present. */
  function AudioPartOf(r: AudioAnalyzer.AudioResult): AudioPart {
    AudioPart(Some(r.pitchAccuracy), Some(r.rhythmAccuracy), Some(r.dynamics), Some(r.overallScore),
      Some(r.pitchCurve), Some(r.beatAlignment), Some(r.issues))
  }

  /** The dictionary substituted when `analyze_audio` raises. */
  const AudioFallback: AudioPart :=
    AudioPart(Some(0), Some(0), Some(0), Some(0), Some([]), Some([]), Some([Issue(Error, AudioFailedTitle, "请重新录制")]))

  function HandPartOf(r: HandAnalyzer.HandResult): HandPart {
    HandPart(Some(r.handDetected), Some(r.overallScore), Some(r.issues), Some(r.handPoints))
  }

  /** The dictionary substituted when `analyze_hands` raises. */
  const HandFallback: HandPart :=
    HandPart(Some(false), Some(0), Some([Issue(Error, HandFailedTitle, "请重新录制")]), Some([]))

  /** `int(audio * 0.6 + hand * 0.4)`. */
  function VideoOverall(audio: int, hand: int): int {
    Trunc(audio as real * 0.6 + hand as real * 0.4)
  }

  /** The weighted score of two scores in [0, 100] lies between them (up to the truncation). */
  lemma VideoOverallBetween(audio: int, hand: int)
    requires 0 <= audio <= 100 && 0 <= hand <= 100
    ensures 0 <= VideoOverall(audio, hand) <= 100
    ensures audio <= hand ==> audio <= VideoOverall(audio, hand) + 1 && VideoOverall(audio, hand) <= hand
    ensures hand <= audio ==> hand <= VideoOverall(audio, hand) + 1 && VideoOverall(audio, hand) <= audio
  {
  }

  /** The merge of the two sub-results, every absent field read as 0, false or []. */
  function Merge(taskId: string, duration: real, a: AudioPart, h: HandPart): VideoReport {
    VideoReport(
      taskId, duration,
      VideoOverall(a.overallScore.GetOr(0), h.overallScore.GetOr(0)),
      a.pitchAccuracy.GetOr(0), a.rhythmAccuracy.GetOr(0), a.dynamics.GetOr(0),
      h.overallScore.GetOr(0), h.handDetected.GetOr(false),
      a.pitchCurve.GetOr([]), a.beatAlignment.GetOr([]), h.handPoints.GetOr([]),
      a.issues.GetOr([]) + h.issues.GetOr([]))
  }

  /** The audio sub-result: the analysis, or the fallback when it raises. */
  function AudioOutcome(audio: Result<AudioAnalyzer.AudioSignal, string>): AudioPart
    requires audio.Ok? ==> AudioAnalyzer.ValidSignal(audio.value)
  {
    match audio
    case Ok(signal) => AudioPartOf(AudioAnalyzer.AudioReport(signal))
    case Err(_) => AudioFallback
  }

  /** The hand sub-result: the analysis, or the fallback when it raises. */
  function HandOutcome(frames: Result<seq<HandAnalyzer.Frame>, string>, mediapipeAvailable: bool): HandPart {
    match frames
    case Ok(fs) => HandPartOf(HandAnalyzer.HandReport(fs, mediapipeAvailable))
    case Err(_) => HandFallback
  }

  predicate ValidMedia(media: Result<Media, string>) {
    media.Ok? && media.value.audio.Ok? ==> AudioAnalyzer.ValidSignal(media.value.audio.value)
  }

  /** The response of `analyze_video`: 400, 500 when preparation raises, or the merged report. */
  function VideoResponse(contentType: Option<string>, nowMs: nat, media: Result<Media, string>): Result<VideoReport, HttpError>
    requires ValidMedia(media)
  {
    if RejectedType(contentType) then Err(HttpError(400, "不支持的文件类型: " + contentType.value))
    else match media
      case Err(e) => Err(HttpError(500, "分析失败: " + e))
      case Ok(m) =>
        Ok(Merge(TaskId(nowMs), m.duration, AudioOutcome(m.audio), HandOutcome(m.frames, m.mediapipeAvailable)))
  }

  /**
   * `analyze_video`: the type check, then the pipeline, in which each
   * analysis that raises is replaced by its fallback dictionary.
   */
  method AnalyzeVideo(contentType: Option<string>, nowMs: nat, media: Result<Media, string>)
    returns (response: Result<VideoReport, HttpError>)
    requires ValidMedia(media)
    ensures response == VideoResponse(contentType, nowMs, media)
  {
    if RejectedType(contentType) {
      return Err(HttpError(400, "不支持的文件类型: " + contentType.value));
    }
    var taskId := TaskId(nowMs);
    if media.Err? {
      return Err(HttpError(500, "分析失败: " + media.error));
    }
    var m := media.value;
    var audioPart := AudioFallback;
    if m.audio.Ok? {
      var audio := AudioAnalyzer.AnalyzeAudio(m.audio.value);
      audioPart := AudioPartOf(audio);
    }
    var handPart := HandFallback;
    if m.frames.Ok? {
      var hand := HandAnalyzer.AnalyzeHands(m.frames.value, m.mediapipeAvailable);
      handPart := HandPartOf(hand);
    }
    response := Ok(Merge(taskId, m.duration, audioPart, handPart));
  }

  // ----- properties ---------------------------------------------------

  /** A present, non-empty type outside the four video types is refused with 400, and only such a type is. */
  lemma ContentTypeCheck(contentType: Option<string>, nowMs: nat, media: Result<Media, string>)
    requires ValidMedia(media)
    ensures var r := VideoResponse(contentType, nowMs, media);
      (r.Err? && r.error.status == 400) <==> RejectedType(contentType)
    ensures contentType == None ==> !RejectedType(contentType)
    ensures forall t :: t in AllowedTypes ==> !RejectedType(Some(t))
  {
  }

  /** Once the type passes, a failed preparation is a 500 and anything else a successful report. */
  lemma PreparationOutcome(contentType: Option<string>, nowMs: nat, media: Result<Media, string>)
    requires ValidMedia(media) && !RejectedType(contentType)
    ensures media.Err? <==> VideoResponse(contentType, nowMs, media).Err?
    ensures media.Err? ==> VideoResponse(contentType, nowMs, media).error.status == 500
  {
  }

  /** Merging never drops or reorders an issue: the audio issues, then the hand issues. */
  lemma MergeKeepsIssues(taskId: string, duration: real, a: AudioPart, h: HandPart)
    ensures var r := Merge(taskId, duration, a, h);
      && |r.issues| == |a.issues.GetOr([])| + |h.issues.GetOr([])|
      && r.issues[..|a.issues.GetOr([])|] == a.issues.GetOr([])
      && r.issues[|a.issues.GetOr([])|..] == h.issues.GetOr([])
  {
  }

  /** Absent fields read as zero, false or empty, and the hand score is the overall hand score. */
  lemma MergeDefaults(taskId: string, duration: real)
    ensures var r := Merge(taskId, duration, AudioPart(None, None, None, None, None, None, None), HandPart(None, None, None, None));
      && r.overallScore == 0 && r.pitchAccuracy == 0 && r.rhythmAccuracy == 0 && r.dynamics == 0
      && r.handScore == 0 && !r.handDetected
      && r.pitchCurve == [] && r.beatAlignment == [] && r.handPoints == [] && r.issues == []
  {
  }

  /**
   * A failed audio analysis still answers successfully: all audio scores 0
   * and one error issue titled 音频分析失败 ahead of the hand issues.
   */
  lemma AudioFailureFallsBack(contentType: Option<string>, nowMs: nat, m: Media)
    requires !RejectedType(contentType) && m.audio.Err?
    ensures var r := VideoResponse(contentType, nowMs, Ok(m));
      && r.Ok?
      && r.value.pitchAccuracy == 0 && r.value.rhythmAccuracy == 0 && r.value.dynamics == 0
      && r.value.pitchCurve == [] && r.value.beatAlignment == []
      && r.value.issues[0] == Issue(Error, AudioFailedTitle, "请重新录制")
      && r.value.issues[1..] == HandOutcome(m.frames, m.mediapipeAvailable).issues.GetOr([])
  {
  }

  /** A failed hand analysis: hand score 0, no hand, no points, and one error issue after the audio issues. */
  lemma HandFailureFallsBack(contentType: Option<string>, nowMs: nat, m: Media)
    requires ValidMedia(Ok(m)) && !RejectedType(contentType) && m.frames.Err?
    ensures var r := VideoResponse(contentType, nowMs, Ok(m));
      && r.Ok?
      && r.value.handScore == 0 && !r.value.handDetected && r.value.handPoints == []
      && r.value.issues[|r.value.issues| - 1] == Issue(Error, HandFailedTitle, "请重新录制")
  {
  }

  /** Whatever each analysis does, the overall score lies in [0, 100]. */
  lemma VideoScoreInRange(contentType: Option<string>, nowMs: nat, m: Media)
    requires ValidMedia(Ok(m)) && !RejectedType(contentType)
    ensures var r := VideoResponse(contentType, nowMs, Ok(m));
      && 0 <= r.value.overallScore <= 100
      && 0 <= r.value.handScore <= 100
  {
    var a := AudioOutcome(m.audio);
    var h := HandOutcome(m.frames, m.mediapipeAvailable);
    if m.audio.Ok? {
      AudioAnalyzer.AudioReportShape(m.audio.value);
    }
    if m.frames.Ok? {
      HandAnalyzer.ReportScores(m.frames.value, m.mediapipeAvailable);
    }
    VideoOverallBetween(a.overallScore.GetOr(0), h.overallScore.GetOr(0));
  }
}
