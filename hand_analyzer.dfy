/**
 * server/services/hand_analyzer.py: the hand-posture analysis of a list of
 * video frames.  MediaPipe's landmark detection and `_calculate_finger_angles`
 * are inputs here: each frame arrives already processed, as the hands found
 * in it with their landmarks and per-finger joint angles.
 */
module HandAnalyzer {
  import opened Wrappers
  import opened Scoring

  datatype Landmark = Landmark(x: real, y: real, z: real)

  /**
   * One hand in `results.multi_hand_landmarks`: its handedness label when
   * `multi_handedness` reports one, its landmarks, and the finger angles
   * (finger name to degrees) computed from them.
   */
  datatype DetectedHand = DetectedHand(handedness: Option<string>, landmarks: seq<Landmark>, angles: map<string, real>)

  /** A frame: `cv2.imread` failed, or the hands MediaPipe found (possibly none). */
  datatype Frame = Unreadable | Processed(hands: seq<DetectedHand>)

  /** One entry of `handPoints`. */
  datatype HandSample = HandSample(frameIndex: nat, hand: string, landmarks: seq<Landmark>)

  /** The dictionary `analyze_hands` returns. */
  datatype HandResult = HandResult(
    handDetected: bool,
    frameCount: nat,
    detectedFrames: nat,
    overallScore: int,
    issues: seq<Issue>,
    handPoints: seq<HandSample>)

  const FingerNames: seq<string> := ["thumb", "index", "middle", "ring", "pinky"]

  const NoFramesIssue: Issue := Issue(Error, "无视频帧", "请重新录制视频")
  const UnavailableIssue: Issue := Issue(Info, "手部分析暂不可用", "请在 Linux 服务器上部署以启用手部分析")
  const LowDetectionIssue: Issue := Issue(Warning, "手部检测率低", "请确保摄像头能清晰拍到双手，光线充足")

  /** How many `handPoints` samples are returned at most. */
  const MaxHandPoints: nat := 20

  // ----- _finger_cn ---------------------------------------------------

  /** `_finger_cn(name)`: the Chinese name of one of the five fingers, any other name unchanged. */
  function FingerCn(name: string): (r: string)
    ensures name in FingerNames <==> r != name
    ensures name !in FingerNames ==> r == name
  {
    match name
    case "index" => "食指"
    case "middle" => "中指"
    case "ring" => "无名指"
    case "pinky" => "小指"
    case "thumb" => "大指"
    case _ => name
  }

  /** The five fingers get five different names. */
  lemma FingerCnInjective()
    ensures forall i, j :: 0 <= i < j < |FingerNames| ==> FingerCn(FingerNames[i]) != FingerCn(FingerNames[j])
  {
  }

  // ----- _evaluate_hand_form ------------------------------------------

  /** The angles recorded for one finger, in record order, from the records that have it. */
  function FingerValues(records: seq<map<string, real>>, name: string): (vs: seq<real>)
    ensures |vs| <= |records|
  {
    if records == [] then []
    else
      var init := FingerValues(records[..|records| - 1], name);
      var last := records[|records| - 1];
      if name in last then init + [last[name]] else init
  }

  /** `avg_angles`: the mean angle of each finger that has values, in finger order. */
  function FingerAverages(records: seq<map<string, real>>): seq<(string, real)> {
    AveragesOf(records, FingerNames)
  }

  function AveragesOf(records: seq<map<string, real>>, names: seq<string>): (r: seq<(string, real)>)
    ensures |r| <= |names|
    ensures forall k :: 0 <= k < |r| ==> r[k].0 in names
  {
    if names == [] then []
    else
      var init := AveragesOf(records, names[..|names| - 1]);
      var name := names[|names| - 1];
      var vs := FingerValues(records, name);
      if vs != [] then init + [(name, Mean(vs))] else init
  }

  /** The ideal joint angle range: 130-160 degrees for the thumb, 140-170 for the other fingers. */
  function IdealRange(name: string): (int, int) {
    if name == "thumb" then (130, 160) else (140, 170)
  }

  /** More than 15 degrees outside the ideal range. */
  predicate OutOfRange(name: string, avg: real) {
    var (lo, hi) := IdealRange(name);
    avg < (lo - 15) as real || avg > (hi + 15) as real
  }

  /** The issue one finger's average raises, if any: too bent below the range, too straight above it. */
  function FingerIssue(name: string, avg: real): (r: Option<Issue>)
    ensures r.Some? <==> OutOfRange(name, avg)
    ensures r.Some? ==> r.value.severity == Warning
  {
    var (lo, hi) := IdealRange(name);
    var cn := if name == "thumb" then "大指" else FingerCn(name);
    if avg < (lo - 15) as real then
      Some(Issue(Warning, cn + "过度弯曲", "放松手指，保持自然弯曲的半握拳状态"))
    else if avg > (hi + 15) as real then
      Some(Issue(Warning, cn + "过于伸直", "手指应自然弯曲，避免僵直"))
    else
      None
  }

  /** The issues of a list of finger averages, in list order. */
  function FormIssues(avgs: seq<(string, real)>): seq<Issue> {
    if avgs == [] then []
    else
      var last := avgs[|avgs| - 1];
      FormIssues(avgs[..|avgs| - 1]) + match FingerIssue(last.0, last.1)
        case Some(issue) => [issue]
        case None => []
  }

  /**
   * One warning per finger out of range and nothing for the others: there
   * are at most as many issues as fingers, all warnings, and none exactly
   * when every finger is in range.
   */
  lemma {:induction false} FormIssuesCount(avgs: seq<(string, real)>)
    ensures |FormIssues(avgs)| <= |avgs|
    ensures forall i :: 0 <= i < |FormIssues(avgs)| ==> FormIssues(avgs)[i].severity == Warning
    ensures FormIssues(avgs) == [] <==> forall k :: 0 <= k < |avgs| ==> !OutOfRange(avgs[k].0, avgs[k].1)
  {
    if avgs != [] {
      var init := avgs[..|avgs| - 1];
      FormIssuesCount(init);
      assert forall k :: 0 <= k < |init| ==> init[k] == avgs[k];
    }
  }

  /**
   * `_evaluate_hand_form(angle_records)`: the loop over the finger averages
   * that deducts 10 points and appends one warning per finger out of range,
   * then the clamp to [0, 100].
   */
  method EvaluateHandForm(records: seq<map<string, real>>) returns (issues: seq<Issue>, score: int)
    ensures issues == FormIssues(FingerAverages(records))
    ensures score == 100 - 10 * |issues|
    ensures 50 <= score <= 100
  {
    var avgs := FingerAverages(records);
    issues := [];
    score := 100;
    for k := 0 to |avgs|
      invariant issues == FormIssues(avgs[..k])
      invariant score == 100 - 10 * |issues|
    {
      assert avgs[..k + 1][..k] == avgs[..k];
      var (name, avg) := avgs[k];
      var (lo, hi) := IdealRange(name);
      var cn := if name == "thumb" then "大指" else FingerCn(name);
      if avg < (lo - 15) as real {
        score := score - 10;
        issues := issues + [Issue(Warning, cn + "过度弯曲", "放松手指，保持自然弯曲的半握拳状态")];
      } else if avg > (hi + 15) as real {
        score := score - 10;
        issues := issues + [Issue(Warning, cn + "过于伸直", "手指应自然弯曲，避免僵直")];
      }
    }
    assert avgs[..|avgs|] == avgs;
    FormIssuesCount(avgs);
    score := Clamp100(score);
  }

  // ----- analyze_hands ------------------------------------------------

  predicate HasHands(f: Frame) {
    f.Processed? && f.hands != []
  }

  /** `detected_count`: frames in which at least one hand was found. */
  function CountDetected(frames: seq<Frame>): (n: nat)
    ensures n <= |frames|
  {
    if frames == [] then 0
    else CountDetected(frames[..|frames| - 1]) + if HasHands(frames[|frames| - 1]) then 1 else 0
  }

  /** The angle records one frame contributes, one per hand. */
  function FrameAngles(f: Frame): seq<map<string, real>> {
    if f.Processed? then seq(|f.hands|, k requires 0 <= k < |f.hands| => f.hands[k].angles) else []
  }

  /** `angle_records`: every hand's angles, frame by frame. */
  function AngleRecords(frames: seq<Frame>): seq<map<string, real>> {
    if frames == [] then []
    else AngleRecords(frames[..|frames| - 1]) + FrameAngles(frames[|frames| - 1])
  }

  /** The handedness label, "unknown" when MediaPipe gives none. */
  function HandLabel(h: DetectedHand): string {
    h.handedness.GetOr("unknown")
  }

  /** The samples frame `i` contributes: one per hand, but only when `i` is a multiple of 10. */
  function FrameSamples(i: nat, f: Frame): seq<HandSample> {
    if f.Processed? && i % 10 == 0 then
      seq(|f.hands|, k requires 0 <= k < |f.hands| => HandSample(i, HandLabel(f.hands[k]), f.hands[k].landmarks))
    else []
  }

  /** `hand_points_samples` before it is cut to 20 entries. */
  function Samples(frames: seq<Frame>): seq<HandSample> {
    if frames == [] then []
    else Samples(frames[..|frames| - 1]) + FrameSamples(|frames| - 1, frames[|frames| - 1])
  }

  const NoFramesResult: HandResult := HandResult(false, 0, 0, 0, [NoFramesIssue], [])

  function UnavailableResult(frameCount: nat): HandResult {
    HandResult(false, frameCount, 0, 0, [UnavailableIssue], [])
  }

  /** `detection_rate < 0.3`, kept as a comparison of whole numbers of frames. */
  predicate LowDetection(detected: nat, frameCount: nat)
    requires frameCount > 0
  {
    (detected as real) / (frameCount as real) < 0.3
  }

  /** `min(100, int(detection_rate * 100))`. */
  function DetectionScore(detected: nat, frameCount: nat): (r: int)
    requires 0 < frameCount && detected <= frameCount
    ensures 0 <= r <= 100
  {
    var rate := (detected as real) / (frameCount as real);
    assert rate * 100.0 <= 100.0 by {
      assert detected as real <= frameCount as real;
    }
    if Trunc(rate * 100.0) < 100 then Trunc(rate * 100.0) else 100
  }

  /** `angle_score * 0.7 + detection_score * 0.3`, truncated. */
  function CombinedHandScore(angleScore: int, detectionScore: int): (r: int)
    requires 0 <= angleScore <= 100 && 0 <= detectionScore <= 100
    ensures 0 <= r <= 100
  {
    Trunc(angleScore as real * 0.7 + detectionScore as real * 0.3)
  }

  /** What `analyze_hands(frame_paths)` returns, stated on the processed frames. */
  function HandReport(frames: seq<Frame>, mediapipeAvailable: bool): HandResult {
    if frames == [] then NoFramesResult
    else if !mediapipeAvailable then UnavailableResult(|frames|)
    else
      var detected := CountDetected(frames);
      var records := AngleRecords(frames);
      var avgs := FingerAverages(records);
      var formIssues := if |records| > 0 then FormIssues(avgs) else [];
      var angleScore := if |records| > 0 then 100 - 10 * |FormIssues(avgs)| else 0;
      var issues := formIssues + if LowDetection(detected, |frames|) then [LowDetectionIssue] else [];
      FormIssuesCount(avgs);
      assert |avgs| <= 5;
      var overall := if detected > 0 then CombinedHandScore(angleScore, DetectionScore(detected, |frames|)) else 0;
      HandResult(detected > 0, |frames|, detected, overall, issues, Take(Samples(frames), MaxHandPoints))
  }

  /** The inner loop over the hands of frame `i`: their angle records, and their samples when `i % 10 == 0`. */
  method CollectFrame(i: nat, frame: Frame, records0: seq<map<string, real>>, samples0: seq<HandSample>)
    returns (records: seq<map<string, real>>, samples: seq<HandSample>)
    ensures records == records0 + FrameAngles(frame)
    ensures samples == samples0 + FrameSamples(i, frame)
  {
    records, samples := records0, samples0;
    if frame.Processed? {
      var j := 0;
      while j < |frame.hands|
        invariant 0 <= j <= |frame.hands|
        invariant records == records0 + FrameAngles(frame)[..j]
        invariant samples == samples0 + FrameSamples(i, frame)[..if i % 10 == 0 then j else 0]
      {
        var hand := frame.hands[j];
        records := records + [hand.angles];
        if i % 10 == 0 {
          samples := samples + [HandSample(i, HandLabel(hand), hand.landmarks)];
        }
        j := j + 1;
      }
      assert FrameAngles(frame)[..j] == FrameAngles(frame);
      assert FrameSamples(i, frame)[..if i % 10 == 0 then j else 0] == FrameSamples(i, frame);
    }
  }

  /**
   * `analyze_hands`: the early returns, then the loop over the frames (and
   * over the hands of each frame) that counts detections and collects angle
   * records and sampled landmarks, then the scoring.
   */
  method AnalyzeHands(frames: seq<Frame>, mediapipeAvailable: bool) returns (r: HandResult)
    ensures r == HandReport(frames, mediapipeAvailable)
  {
    if frames == [] {
      return NoFramesResult;
    }
    if !mediapipeAvailable {
      return UnavailableResult(|frames|);
    }
    var detected := 0;
    var records: seq<map<string, real>> := [];
    var samples: seq<HandSample> := [];
    var i := 0;
    while i < |frames|
      invariant 0 <= i <= |frames|
      invariant detected == CountDetected(frames[..i])
      invariant records == AngleRecords(frames[..i])
      invariant samples == Samples(frames[..i])
    {
      var frame := frames[i];
      assert frames[..i + 1][..i] == frames[..i];
      if HasHands(frame) {
        detected := detected + 1;
      }
      records, samples := CollectFrame(i, frame, records, samples);
      i := i + 1;
    }
    assert frames[..i] == frames;

    var issues: seq<Issue> := [];
    var angleScore := 0;
    if |records| > 0 {
      issues, angleScore := EvaluateHandForm(records);
    }
    if LowDetection(detected, |frames|) {
      issues := issues + [LowDetectionIssue];
    }
    var detectionScore := DetectionScore(detected, |frames|);
    var overall := 0;
    if detected > 0 {
      overall := CombinedHandScore(angleScore, detectionScore);
    }
    r := HandResult(detected > 0, |frames|, detected, overall, issues, Take(samples, MaxHandPoints));
  }

  // ----- properties ---------------------------------------------------

  /** No frames: nothing detected, score 0 and exactly one error. */
  lemma NoFramesReport(available: bool)
    ensures var r := HandReport([], available);
      && !r.handDetected && r.frameCount == 0 && r.detectedFrames == 0 && r.overallScore == 0
      && |r.issues| == 1 && r.issues[0].severity == Error && r.handPoints == []
  {
  }

  /** Without MediaPipe: every frame counted, none detected, score 0 and exactly one info issue. */
  lemma UnavailableReport(frames: seq<Frame>)
    requires frames != []
    ensures var r := HandReport(frames, false);
      && !r.handDetected && r.frameCount == |frames| && r.detectedFrames == 0 && r.overallScore == 0
      && |r.issues| == 1 && r.issues[0].severity == Info && r.handPoints == []
  {
  }

  /** A frame with hands always contributes angle records, so detections imply records. */
  lemma {:induction false} DetectedHasRecords(frames: seq<Frame>)
    ensures CountDetected(frames) > 0 ==> |AngleRecords(frames)| > 0
    ensures |AngleRecords(frames)| >= CountDetected(frames)
  {
    if frames != [] {
      DetectedHasRecords(frames[..|frames| - 1]);
    }
  }

  /**
   * The summary fields agree: a hand is reported iff some frame had one, the
   * score is 0 when none had, and it always lies in [0, 100].
   */
  lemma ReportScores(frames: seq<Frame>, available: bool)
    ensures var r := HandReport(frames, available);
      && (r.handDetected <==> r.detectedFrames > 0)
      && (r.detectedFrames == 0 ==> r.overallScore == 0)
      && 0 <= r.overallScore <= 100
      && r.detectedFrames <= r.frameCount == |frames|
  {
  }

  /**
   * With MediaPipe available, the issues are the finger-form warnings
   * followed by one low-detection warning exactly when under 30% of the
   * frames had a hand.
   */
  lemma ReportIssues(frames: seq<Frame>)
    requires frames != []
    ensures var r := HandReport(frames, true);
      var formIssues := if |AngleRecords(frames)| > 0 then FormIssues(FingerAverages(AngleRecords(frames))) else [];
      && r.issues[..|formIssues|] == formIssues
      && (LowDetection(CountDetected(frames), |frames|) <==> |r.issues| == |formIssues| + 1)
      && (LowDetection(CountDetected(frames), |frames|) ==> r.issues[|r.issues| - 1] == LowDetectionIssue)
      && forall i :: 0 <= i < |r.issues| ==> r.issues[i].severity == Warning
  {
    var records := AngleRecords(frames);
    FormIssuesCount(FingerAverages(records));
  }

  /** Every sample comes from a frame whose index is a multiple of 10 and that had hands. */
  lemma {:induction false} SamplesFromTenthFrames(frames: seq<Frame>)
    ensures forall s :: s in Samples(frames) ==>
      s.frameIndex < |frames| && s.frameIndex % 10 == 0 && HasHands(frames[s.frameIndex])
  {
    if frames != [] {
      var init := frames[..|frames| - 1];
      SamplesFromTenthFrames(init);
      forall s | s in Samples(frames)
        ensures s.frameIndex < |frames| && s.frameIndex % 10 == 0 && HasHands(frames[s.frameIndex])
      {
        if s in Samples(init) {
          assert frames[s.frameIndex] == init[s.frameIndex];
        }
      }
    }
  }

  /** `handPoints` holds at most 20 samples, all from every tenth frame, in frame order. */
  lemma HandPointsSampled(frames: seq<Frame>)
    requires frames != []
    ensures var r := HandReport(frames, true);
      && |r.handPoints| <= MaxHandPoints
      && r.handPoints == Samples(frames)[..|r.handPoints|]
      && forall s :: s in r.handPoints ==>
        s.frameIndex < |frames| && s.frameIndex % 10 == 0 && HasHands(frames[s.frameIndex])
  {
    SamplesFromTenthFrames(frames);
    var all := Samples(frames);
    var r := HandReport(frames, true);
    forall s | s in r.handPoints ensures s in all {
      var k :| 0 <= k < |r.handPoints| && r.handPoints[k] == s;
      assert all[k] == s;
    }
  }
}
