/**
 * server/services/audio_analyzer.py: pitch, rhythm and dynamics scoring of a
 * recording.  librosa's signal processing is an input here: the pitch
 * tracker's frames, the onset times (with the standard deviation of their
 * intervals, since square roots are not modelled) and the RMS energies.
 */
module AudioAnalyzer {
  import opened Scoring

  // ----- _analyze_pitch -----------------------------------------------

  /**
   * One frame of `librosa.pyin`: its time, fundamental frequency, whether it
   * is voiced, and the signed distance in cents from its nearest
   * equal-tempered note (what `hz_to_midi` and `np.round` yield, times 100).
   */
  datatype PitchFrame = PitchFrame(time: real, f0: real, voiced: bool, cents: real)

  /** One entry of `pitchCurve` (the note name and the rounding are not modelled). */
  datatype CurvePoint = CurvePoint(time: real, frequency: real, centsOff: real)

  datatype PitchResult = PitchResult(score: int, curve: seq<CurvePoint>, issues: seq<Issue>)

  const NoPitchIssue: Issue := Issue(Warning, "未检测到明显音高", "请确保录音环境安静，古筝靠近麦克风")

  /** How many points `pitchCurve` is meant to hold at most. */
  const MaxCurvePoints: nat := 200

  /** `deviations`: the absolute deviation of every voiced frame, in frame order. */
  function VoicedDeviations(frames: seq<PitchFrame>): (ds: seq<real>)
    ensures |ds| <= |frames|
    ensures forall k :: 0 <= k < |ds| ==> 0.0 <= ds[k]
  {
    if frames == [] then []
    else
      var last := frames[|frames| - 1];
      VoicedDeviations(frames[..|frames| - 1]) + if last.voiced then [Abs(last.cents)] else []
  }

  /** `max(0, min(100, int(100 - avg_deviation * 2)))`: 0 cents scores 100, 50 cents scores 0. */
  function PitchScore(avgDeviation: real): (r: int)
    ensures 0 <= r <= 100
  {
    Clamp100(Trunc(100.0 - avgDeviation * 2.0))
  }

  /** A warning above 25 cents on average, raised to an error above 40. */
  function PitchIssues(avgDeviation: real): seq<Issue> {
    if avgDeviation > 25.0 then
      [Issue(if avgDeviation > 40.0 then Error else Warning, "音准偏差较大", "建议搭配调音器逐音练习，注意左手按弦力度")]
    else []
  }

  /** The curve point of a voiced frame, carrying that frame's own deviation. */
  function PointOf(f: PitchFrame): CurvePoint {
    CurvePoint(f.time, f.f0, Abs(f.cents))
  }

  /** The curve before downsampling: one point per voiced frame, in frame order. */
  function VoicedCurve(frames: seq<PitchFrame>): seq<CurvePoint> {
    if frames == [] then []
    else
      var last := frames[|frames| - 1];
      VoicedCurve(frames[..|frames| - 1]) + if last.voiced then [PointOf(last)] else []
  }

  /**
   * The curve as written: `cents_off` reads `deviations[i]` with `i` the
   * index among ALL frames, although `deviations` only has the voiced ones.
   */
  function VoicedCurveAsWritten(frames: seq<PitchFrame>, deviations: seq<real>): seq<CurvePoint> {
    if frames == [] then []
    else
      var i := |frames| - 1;
      var last := frames[i];
      VoicedCurveAsWritten(frames[..i], deviations)
        + if last.voiced then [CurvePoint(last.time, last.f0, if i < |deviations| then deviations[i] else 0.0)] else []
  }

  /**
   * The k-th point of the curve carries the k-th voiced deviation, so the
   * curve and `deviations` line up entry for entry.
   */
  lemma {:induction false} VoicedCurveAligned(frames: seq<PitchFrame>)
    ensures |VoicedCurve(frames)| == |VoicedDeviations(frames)|
    ensures forall k :: 0 <= k < |VoicedCurve(frames)| ==> VoicedCurve(frames)[k].centsOff == VoicedDeviations(frames)[k]
  {
    if frames != [] {
      VoicedCurveAligned(frames[..|frames| - 1]);
    }
  }

  /** When every frame is voiced the index slip is harmless: both curves agree. */
  lemma {:induction false} AsWrittenAgreesWhenAllVoiced(frames: seq<PitchFrame>, deviations: seq<real>)
    requires forall k :: 0 <= k < |frames| ==> frames[k].voiced
    requires deviations == VoicedDeviations(frames)
    ensures VoicedCurveAsWritten(frames, deviations) == VoicedCurve(frames)
  {
    if frames != [] {
      var init := frames[..|frames| - 1];
      AllVoicedDeviations(frames);
      AllVoicedDeviations(init);
      assert VoicedCurveAsWritten(init, VoicedDeviations(init)) == VoicedCurve(init) by {
        AsWrittenAgreesWhenAllVoiced(init, VoicedDeviations(init));
      }
      AsWrittenPrefixIndependent(init, VoicedDeviations(init), deviations);
    }
  }

  lemma {:induction false} AllVoicedDeviations(frames: seq<PitchFrame>)
    requires forall k :: 0 <= k < |frames| ==> frames[k].voiced
    ensures |VoicedDeviations(frames)| == |frames|
    ensures forall k :: 0 <= k < |frames| ==> VoicedDeviations(frames)[k] == Abs(frames[k].cents)
  {
    if frames != [] {
      AllVoicedDeviations(frames[..|frames| - 1]);
    }
  }

  /** The as-written curve of a prefix only reads deviations below the prefix length. */
  lemma {:induction false} AsWrittenPrefixIndependent(frames: seq<PitchFrame>, d1: seq<real>, d2: seq<real>)
    requires |frames| <= |d1| <= |d2| && d1 == d2[..|d1|]
    ensures VoicedCurveAsWritten(frames, d1) == VoicedCurveAsWritten(frames, d2)
  {
    if frames != [] {
      AsWrittenPrefixIndependent(frames[..|frames| - 1], d1, d2);
    }
  }

  /**
   * The index slip: an unvoiced frame followed by a voiced one 30 cents off
   * puts 0 cents on the curve instead of 30.
   */
  lemma CentsOffMisindexed()
    ensures var frames := [PitchFrame(0.0, 0.0, false, 0.0), PitchFrame(0.01, 440.0, true, 30.0)];
      && VoicedCurveAsWritten(frames, VoicedDeviations(frames)) == [CurvePoint(0.01, 440.0, 0.0)]
      && VoicedCurve(frames) == [CurvePoint(0.01, 440.0, 30.0)]
  {
    var frames := [PitchFrame(0.0, 0.0, false, 0.0), PitchFrame(0.01, 440.0, true, 30.0)];
    var head := frames[..1];
    assert head == [PitchFrame(0.0, 0.0, false, 0.0)];
    assert head[..0] == [];
    assert VoicedDeviations(head) == [];
    assert VoicedDeviations(frames) == [30.0];
    assert VoicedCurveAsWritten(head, [30.0]) == [];
    assert VoicedCurve(head) == [];
  }

  /** `s[::step]`: the elements at 0, step, 2*step, ... */
  function Stride<T>(s: seq<T>, step: nat): (r: seq<T>)
    requires step >= 1
    ensures s != [] ==> r != [] && r[0] == s[0]
    decreases |s|
  {
    if s == [] then []
    else [s[0]] + if step < |s| then Stride(s[step..], step) else []
  }

  /** The index of the `k`-th element of `s[::step]`, counted in steps. */
  function StridePos(step: nat, k: nat): nat {
    if k == 0 then 0 else StridePos(step, k - 1) + step
  }

  /** Counting in steps is multiplying. */
  lemma {:induction false} StridePosProduct(step: nat, k: nat)
    ensures StridePos(step, k) == k * step
  {
    if k > 0 {
      StridePosProduct(step, k - 1);
      assert (k - 1) * step + step == k * step;
    }
  }

  /** The `k`-th element of `s[::step]` is the one `k` steps into `s`. */
  lemma {:induction false} StrideAt<T>(s: seq<T>, step: nat, k: nat)
    requires step >= 1 && k < |Stride(s, step)|
    ensures StridePos(step, k) < |s| && Stride(s, step)[k] == s[StridePos(step, k)]
    decreases k
  {
    if k > 0 {
      var t := s[step..];
      assert step < |s|;
      assert Stride(s, step) == [s[0]] + Stride(t, step);
      StrideAt(t, step, k - 1);
      assert t[StridePos(step, k - 1)] == s[StridePos(step, k)];
    }
  }

  /** Every element of `s[::step]` is `s[k * step]`. */
  lemma StrideElements<T>(s: seq<T>, step: nat)
    requires step >= 1
    ensures forall k :: 0 <= k < |Stride(s, step)| ==> k * step < |s| && Stride(s, step)[k] == s[k * step]
  {
    forall k | 0 <= k < |Stride(s, step)|
      ensures k * step < |s| && Stride(s, step)[k] == s[k * step]
    {
      StrideAt(s, step, k);
      StridePosProduct(step, k);
    }
  }

  /** At most `m` elements when `s` has at most `m * step`. */
  lemma {:induction false} StrideLength<T>(s: seq<T>, step: nat, m: nat)
    requires step >= 1 && |s| <= m * step
    ensures |Stride(s, step)| <= m
    decreases |s|
  {
    if s != [] && step < |s| {
      assert m >= 1;
      assert |s[step..]| <= (m - 1) * step;
      StrideLength(s[step..], step, m - 1);
    } else if s != [] {
      assert m >= 1;
    }
  }

  /** A step of 1 keeps everything. */
  lemma {:induction false} StrideOne<T>(s: seq<T>)
    ensures Stride(s, 1) == s
    decreases |s|
  {
    if |s| > 1 {
      StrideOne(s[1..]);
    }
  }

  /** The downsampling as written: `step = len(curve) // 200`. */
  function DownsampleAsWritten<T>(curve: seq<T>): seq<T> {
    if |curve| > MaxCurvePoints then Stride(curve, |curve| / MaxCurvePoints) else curve
  }

  /** Between 201 and 399 points the step is 1 and nothing is dropped: more than 200 points remain. */
  lemma DownsampleAsWrittenTooLong<T>(curve: seq<T>)
    requires MaxCurvePoints < |curve| < 2 * MaxCurvePoints
    ensures DownsampleAsWritten(curve) == curve
    ensures |DownsampleAsWritten(curve)| > MaxCurvePoints
  {
    StrideOne(curve);
  }

  /** The downsampling the comment promises: the step rounded up, `ceil(len / 200)`. */
  function Downsample<T>(curve: seq<T>): seq<T> {
    if |curve| > MaxCurvePoints then Stride(curve, (|curve| + MaxCurvePoints - 1) / MaxCurvePoints) else curve
  }

  /** At most 200 points, starting with the first, each one taken from the curve at a multiple of the step. */
  lemma DownsampleBounded<T>(curve: seq<T>)
    ensures |Downsample(curve)| <= MaxCurvePoints
    ensures curve != [] ==> Downsample(curve) != [] && Downsample(curve)[0] == curve[0]
    ensures forall x :: x in Downsample(curve) ==> x in curve
  {
    if |curve| > MaxCurvePoints {
      var step := (|curve| + MaxCurvePoints - 1) / MaxCurvePoints;
      assert |curve| <= MaxCurvePoints * step;
      StrideLength(curve, step, MaxCurvePoints);
      StrideElements(curve, step);
      var r := Downsample(curve);
      forall x | x in r ensures x in curve {
        var k :| 0 <= k < |r| && r[k] == x;
        assert curve[k * step] == x;
      }
    }
  }

  /**
   * What `_analyze_pitch` returns, as written: the curve carries the
   * mis-indexed `cents_off` and is thinned with the step `len(curve) // 200`.
   */
  function PitchReport(frames: seq<PitchFrame>): PitchResult {
    var deviations := VoicedDeviations(frames);
    if deviations == [] then PitchResult(50, [], [NoPitchIssue])
    else
      var avg := Mean(deviations);
      PitchResult(PitchScore(avg), DownsampleAsWritten(VoicedCurveAsWritten(frames, deviations)), PitchIssues(avg))
  }

  /** The report `_analyze_pitch` is evidently meant to return: own-frame `cents_off`, step rounded up. */
  function IntendedPitchReport(frames: seq<PitchFrame>): PitchResult {
    var deviations := VoicedDeviations(frames);
    if deviations == [] then PitchResult(50, [], [NoPitchIssue])
    else
      var avg := Mean(deviations);
      PitchResult(PitchScore(avg), Downsample(VoicedCurve(frames)), PitchIssues(avg))
  }

  /**
   * `_analyze_pitch`: the voiced deviations and their mean, the loop that
   * builds the curve point by point over all frames, the downsampling and
   * the issues with their in-place severity update.
   */
  method AnalyzePitch(frames: seq<PitchFrame>) returns (r: PitchResult)
    ensures r == PitchReport(frames)
  {
    var deviations := VoicedDeviations(frames);
    if |deviations| == 0 {
      return PitchResult(50, [], [NoPitchIssue]);
    }
    var avg := Mean(deviations);
    var score := PitchScore(avg);
    var curve: seq<CurvePoint> := [];
    for i := 0 to |frames|
      invariant curve == VoicedCurveAsWritten(frames[..i], deviations)
    {
      assert frames[..i + 1][..i] == frames[..i];
      if frames[i].voiced {
        curve := curve + [CurvePoint(frames[i].time, frames[i].f0, if i < |deviations| then deviations[i] else 0.0)];
      }
    }
    assert frames[..|frames|] == frames;
    if |curve| > MaxCurvePoints {
      var step := |curve| / MaxCurvePoints;
      curve := Stride(curve, step);
    }
    var issues: seq<Issue> := [];
    if avg > 25.0 {
      issues := issues + [Issue(Warning, "音准偏差较大", "建议搭配调音器逐音练习，注意左手按弦力度")];
    }
    if avg > 40.0 {
      issues := issues[0 := issues[0].(severity := Error)];
    }
    r := PitchResult(score, curve, issues);
  }

  /** The index slip only touches `cents_off`: one point per voiced frame, with its time and frequency. */
  lemma {:induction false} AsWrittenDiffersOnlyInCents(frames: seq<PitchFrame>, deviations: seq<real>)
    ensures |VoicedCurveAsWritten(frames, deviations)| == |VoicedCurve(frames)| == |VoicedDeviations(frames)|
    ensures forall k :: 0 <= k < |VoicedCurve(frames)| ==>
      VoicedCurveAsWritten(frames, deviations)[k].time == VoicedCurve(frames)[k].time &&
      VoicedCurveAsWritten(frames, deviations)[k].frequency == VoicedCurve(frames)[k].frequency
  {
    if frames != [] {
      AsWrittenDiffersOnlyInCents(frames[..|frames| - 1], deviations);
    }
  }

  /** Every element of `s[::step]` is an element of `s`. */
  lemma {:induction false} StrideSubset<T>(s: seq<T>, step: nat)
    requires step >= 1
    ensures forall x :: x in Stride(s, step) ==> x in s
    decreases |s|
  {
    if s != [] && step < |s| {
      StrideSubset(s[step..], step);
      assert forall x :: x in s[step..] ==> x in s;
    }
  }

  /**
   * The downsampling as written never exceeds 399 points, and from 400
   * points on (step 2 or more) it keeps at most 300.  It keeps the first
   * point and only keeps points of the curve.
   */
  lemma DownsampleAsWrittenBounded<T>(curve: seq<T>)
    ensures |DownsampleAsWritten(curve)| < 2 * MaxCurvePoints
    ensures |curve| >= 2 * MaxCurvePoints ==> |DownsampleAsWritten(curve)| <= 300
    ensures |DownsampleAsWritten(curve)| <= |curve|
    ensures curve != [] ==> DownsampleAsWritten(curve) != [] && DownsampleAsWritten(curve)[0] == curve[0]
    ensures forall x :: x in DownsampleAsWritten(curve) ==> x in curve
  {
    if |curve| > MaxCurvePoints {
      var step := |curve| / MaxCurvePoints;
      StepBounds(|curve|);
      StrideLength(curve, step, 2 * MaxCurvePoints - 1);
      StrideLength(curve, step, |curve|);
      StrideSubset(curve, step);
      if step >= 2 {
        StrideLength(curve, step, 300);
      }
    }
  }

  /** The step `n // 200` of a curve longer than 200 points covers it in 399 strides, and in 300 from step 2 on. */
  lemma StepBounds(n: nat)
    requires n > MaxCurvePoints
    ensures var step := n / MaxCurvePoints;
      && 1 <= step && n <= (2 * MaxCurvePoints - 1) * step
      && (step >= 2 ==> n <= 300 * step)
      && (n >= 2 * MaxCurvePoints ==> step >= 2)
  {
    var step := n / MaxCurvePoints;
    var rem := n % MaxCurvePoints;
    assert n == MaxCurvePoints * step + rem && rem < MaxCurvePoints;
  }

  /** No voiced frame: score 50, empty curve, one warning. */
  lemma PitchSilent(frames: seq<PitchFrame>)
    requires forall k :: 0 <= k < |frames| ==> !frames[k].voiced
    ensures PitchReport(frames) == PitchResult(50, [], [NoPitchIssue])
  {
    NoVoicedNoDeviations(frames);
  }

  lemma {:induction false} NoVoicedNoDeviations(frames: seq<PitchFrame>)
    requires forall k :: 0 <= k < |frames| ==> !frames[k].voiced
    ensures VoicedDeviations(frames) == []
  {
    if frames != [] {
      NoVoicedNoDeviations(frames[..|frames| - 1]);
    }
  }

  /**
   * With voiced frames: at most one issue, present exactly when the mean
   * deviation exceeds 25 cents and an error exactly when it exceeds 40.  The
   * curve keeps the first voiced point, holds no more points than there are
   * voiced frames, fewer than 400 points, and only points of the as-written
   * curve.
   */
  lemma PitchVoiced(frames: seq<PitchFrame>)
    requires VoicedDeviations(frames) != []
    ensures var ds := VoicedDeviations(frames);
      var avg := Mean(ds);
      var full := VoicedCurveAsWritten(frames, ds);
      var r := PitchReport(frames);
      && |r.issues| <= 1
      && (r.issues != [] <==> avg > 25.0)
      && (r.issues != [] ==> (r.issues[0].severity == Error <==> avg > 40.0))
      && |r.curve| <= |ds|
      && |r.curve| < 2 * MaxCurvePoints
      && r.curve != [] && r.curve[0] == full[0]
      && forall p :: p in r.curve ==> p in full
  {
    var ds := VoicedDeviations(frames);
    AsWrittenDiffersOnlyInCents(frames, ds);
    DownsampleAsWrittenBounded(VoicedCurveAsWritten(frames, ds));
  }

  /**
   * The intended report: the same score and issues, and a curve of at most
   * 200 points, each the point of a voiced frame with its own deviation.
   */
  lemma IntendedPitchVoiced(frames: seq<PitchFrame>)
    requires VoicedDeviations(frames) != []
    ensures var r := IntendedPitchReport(frames);
      && r.score == PitchReport(frames).score
      && r.issues == PitchReport(frames).issues
      && |r.curve| <= MaxCurvePoints
      && forall p :: p in r.curve ==> p in VoicedCurve(frames)
  {
    DownsampleBounded(VoicedCurve(frames));
  }

  // ----- _analyze_rhythm ----------------------------------------------

  datatype RhythmResult = RhythmResult(score: int, beats: seq<real>, issues: seq<Issue>)

  const FewOnsetsIssue: Issue := Issue(Info, "音符数量过少", "建议录制更长的练习片段")

  /** How many onsets `beatAlignment` keeps. */
  const MaxBeats: nat := 100

  /** `np.diff`. */
  function Diffs(xs: seq<real>): (ds: seq<real>)
    ensures |ds| == if xs == [] then 0 else |xs| - 1
  {
    if |xs| < 2 then [] else seq(|xs| - 1, k requires 0 <= k < |xs| - 1 => xs[k + 1] - xs[k])
  }

  /** The population variance `np.var`. */
  function Variance(xs: seq<real>): real
    requires xs != []
  {
    var m := Mean(xs);
    Mean(seq(|xs|, k requires 0 <= k < |xs| => (xs[k] - m) * (xs[k] - m)))
  }

  /** `std` is `np.std(xs)`: the non-negative square root of the variance. */
  predicate IsStd(std: real, xs: seq<real>) {
    xs == [] || (0.0 <= std && std * std == Variance(xs))
  }

  /** The intervals between onsets add up to the span from the first to the last. */
  lemma {:induction false} DiffsTelescope(xs: seq<real>)
    requires xs != []
    ensures Sum(Diffs(xs)) == xs[|xs| - 1] - xs[0]
  {
    if |xs| >= 2 {
      var init := xs[..|xs| - 1];
      DiffsTelescope(init);
      assert Diffs(xs)[..|xs| - 2] == Diffs(init);
    }
  }

  /** The mean interval is the span divided by the number of intervals. */
  lemma MeanInterval(onsets: seq<real>)
    requires |onsets| >= 2
    ensures Mean(Diffs(onsets)) == (onsets[|onsets| - 1] - onsets[0]) / (|onsets| - 1) as real
  {
    DiffsTelescope(onsets);
  }

  /** The coefficient of variation, 1.0 when the mean interval is not positive. */
  function VariationCoefficient(intervals: seq<real>, std: real): real
    requires intervals != []
  {
    if Mean(intervals) > 0.0 then std / Mean(intervals) else 1.0
  }

  /** `max(0, min(100, int(100 - cv * 100)))`. */
  function RhythmScore(cv: real): (r: int)
    ensures 0 <= r <= 100
  {
    Clamp100(Trunc(100.0 - cv * 100.0))
  }

  /** A warning above a coefficient of 0.3, raised to an error above 0.5. */
  function RhythmIssues(cv: real): seq<Issue> {
    if cv > 0.3 then
      [Issue(if cv > 0.5 then Error else Warning, "节奏不够稳定", "建议搭配节拍器从慢速开始练习，逐步提速")]
    else []
  }

  /** What `_analyze_rhythm` returns; `intervalStd` is the standard deviation of the intervals. */
  function RhythmReport(onsets: seq<real>, intervalStd: real): RhythmResult
    requires IsStd(intervalStd, Diffs(onsets))
  {
    if |onsets| < 3 then RhythmResult(60, [], [FewOnsetsIssue])
    else
      var cv := VariationCoefficient(Diffs(onsets), intervalStd);
      RhythmResult(RhythmScore(cv), Take(onsets, MaxBeats), RhythmIssues(cv))
  }

  /** The sum of a constant sequence. */
  lemma {:induction false} SumConstant(xs: seq<real>, c: real)
    requires forall k :: 0 <= k < |xs| ==> xs[k] == c
    ensures Sum(xs) == |xs| as real * c
  {
    if xs != [] {
      SumConstant(xs[..|xs| - 1], c);
    }
  }

  lemma DivCancel(n: real, d: real)
    requires n != 0.0
    ensures (n * d) / n == d
  {
  }

  /**
   * Perfectly even playing: onsets a fixed positive interval apart have a
   * variance of zero, score 100 and raise no issue.
   */
  lemma EvenRhythmScoresFull(onsets: seq<real>, d: real)
    requires |onsets| >= 3 && d > 0.0
    requires forall k :: 0 <= k < |onsets| - 1 ==> onsets[k + 1] - onsets[k] == d
    ensures IsStd(0.0, Diffs(onsets))
    ensures RhythmReport(onsets, 0.0) == RhythmResult(100, Take(onsets, MaxBeats), [])
  {
    var ds := Diffs(onsets);
    ConstantVariance(ds, d);
    assert VariationCoefficient(ds, 0.0) == 0.0;
  }

  /** Equal values have that value as their mean and no variance. */
  lemma ConstantVariance(xs: seq<real>, c: real)
    requires xs != []
    requires forall k :: 0 <= k < |xs| ==> xs[k] == c
    ensures Mean(xs) == c && Variance(xs) == 0.0
  {
    SumConstant(xs, c);
    DivCancel(|xs| as real, c);
    var m := Mean(xs);
    assert m == c;
    var sq := seq(|xs|, k requires 0 <= k < |xs| => (xs[k] - m) * (xs[k] - m));
    assert forall k :: 0 <= k < |sq| ==> sq[k] == 0.0;
    SumConstant(sq, 0.0);
  }

  /**
   * Fewer than three onsets: score 60, no beats, one info issue.  Otherwise
   * at most one issue, present exactly when the coefficient of variation
   * exceeds 0.3 and an error exactly when it exceeds 0.5; at most 100 beats,
   * the first onsets in order; and
   * strictly increasing onsets make the coefficient the standard deviation
   * over the mean interval.
   */
  lemma RhythmShape(onsets: seq<real>, intervalStd: real)
    requires IsStd(intervalStd, Diffs(onsets))
    ensures |onsets| < 3 ==> RhythmReport(onsets, intervalStd) == RhythmResult(60, [], [FewOnsetsIssue])
    ensures var r := RhythmReport(onsets, intervalStd);
      && |r.issues| <= 1 && |r.beats| <= MaxBeats && r.beats == onsets[..|r.beats|]
    ensures |onsets| >= 3 ==>
      var r := RhythmReport(onsets, intervalStd);
      var cv := VariationCoefficient(Diffs(onsets), intervalStd);
      && (r.issues != [] <==> cv > 0.3)
      && (r.issues != [] ==> (r.issues[0].severity == Error <==> cv > 0.5))
    ensures |onsets| >= 3 && onsets[0] < onsets[|onsets| - 1] ==>
      VariationCoefficient(Diffs(onsets), intervalStd) == intervalStd / ((onsets[|onsets| - 1] - onsets[0]) / (|onsets| - 1) as real)
  {
    if |onsets| >= 3 {
      MeanInterval(onsets);
    }
  }

  // ----- _analyze_dynamics --------------------------------------------

  datatype DynamicsResult = DynamicsResult(score: int, issues: seq<Issue>)

  const QuietIssue: Issue := Issue(Warning, "音量过低", "请靠近麦克风录制")
  const FlatIssue: Issue := Issue(Info, "力度变化不足", "注意乐句的强弱变化，练习渐强渐弱")
  const UnsteadyIssue: Issue := Issue(Warning, "力度控制不稳", "注意触弦力度的均匀控制")

  predicate NonNegative(xs: seq<real>) {
    forall k :: 0 <= k < |xs| ==> 0.0 <= xs[k]
  }

  /** `np.max`. */
  function Max(xs: seq<real>): (m: real)
    requires xs != []
    ensures m in xs
    ensures forall k :: 0 <= k < |xs| ==> xs[k] <= m
  {
    if |xs| == 1 then xs[0]
    else
      var m := Max(xs[..|xs| - 1]);
      assert forall k :: 0 <= k < |xs| - 1 ==> xs[..|xs| - 1][k] == xs[k];
      if xs[|xs| - 1] > m then xs[|xs| - 1] else m
  }

  /** `np.min(xs[xs > t])`, or nothing when no element exceeds `t`. */
  function MinAbove(xs: seq<real>, t: real): (m: real)
    requires exists k :: 0 <= k < |xs| && xs[k] > t
    ensures m in xs && m > t
    ensures forall k :: 0 <= k < |xs| && xs[k] > t ==> m <= xs[k]
  {
    var last := xs[|xs| - 1];
    var init := xs[..|xs| - 1];
    assert forall k :: 0 <= k < |init| ==> init[k] == xs[k];
    if exists k :: 0 <= k < |init| && init[k] > t then
      var m := MinAbove(init, t);
      if last > t && last < m then last else m
    else
      last
  }

  /** `np.mean(np.abs(np.diff(xs)))`, defined for two or more values. */
  function MeanAbsDiff(xs: seq<real>): (m: real)
    requires |xs| >= 2
    ensures 0.0 <= m
  {
    var ds := Diffs(xs);
    var abs := seq(|ds|, k requires 0 <= k < |ds| => Abs(ds[k]));
    SumNonNegative(abs);
    Mean(abs)
  }

  lemma {:induction false} SumNonNegative(xs: seq<real>)
    requires NonNegative(xs)
    ensures 0.0 <= Sum(xs)
  {
    if xs != [] {
      SumNonNegative(xs[..|xs| - 1]);
    }
  }

  /** `rms / np.max(rms)`. */
  function Normalize(rms: seq<real>, peak: real): seq<real>
    requires peak > 0.0
  {
    seq(|rms|, k requires 0 <= k < |rms| => rms[k] / peak)
  }

  /** `(max - min of the values above 1% of max) / max`. */
  function DynamicRange(rms: seq<real>): (r: real)
    requires rms != [] && Max(rms) > 0.0
    ensures 0.0 <= r < 1.0
  {
    var peak := Max(rms);
    var k :| 0 <= k < |rms| && rms[k] == peak;
    assert rms[k] > 0.01 * peak;
    var low := MinAbove(rms, 0.01 * peak);
    RatioBounds(low, peak);
    (peak - low) / peak
  }

  lemma RatioBounds(low: real, peak: real)
    requires 0.0 < low <= peak
    ensures 0.0 <= (peak - low) / peak < 1.0
  {
    var r := (peak - low) / peak;
    assert r * peak == peak - low;
    assert (1.0 - r) * peak == low;
  }

  /**
   * `1 - min(1, 10 * mean |diff|)` over the normalized energies.  With a
   * single frame the mean of no differences is NaN and `min(1.0, nan)` is
   * 1.0, so the smoothness is 0.
   */
  function Smoothness(rms: seq<real>): (r: real)
    requires rms != [] && Max(rms) > 0.0
    ensures 0.0 <= r <= 1.0
  {
    if |rms| < 2 then 0.0
    else
      var m := MeanAbsDiff(Normalize(rms, Max(rms))) * 10.0;
      1.0 - if m < 1.0 then m else 1.0
  }

  /** What `_analyze_dynamics` returns on non-negative RMS energies. */
  function DynamicsReport(rms: seq<real>): DynamicsResult
    requires NonNegative(rms)
  {
    if rms == [] || Max(rms) == 0.0 then DynamicsResult(50, [QuietIssue])
    else
      var range := DynamicRange(rms);
      var smooth := Smoothness(rms);
      DynamicsResult(
        Clamp100(Trunc(range * 50.0 + smooth * 50.0)),
        (if range < 0.3 then [FlatIssue] else []) + (if smooth < 0.4 then [UnsteadyIssue] else []))
  }

  /**
   * Silence scores 50 with one warning; otherwise the score is the
   * unclamped weighted sum (it already lies in [0, 100)), and the issues are
   * the flat-dynamics info then the unsteadiness warning, each exactly when
   * its measure is under its threshold.
   */
  lemma DynamicsShape(rms: seq<real>)
    requires NonNegative(rms)
    ensures rms == [] || Max(rms) == 0.0 ==> DynamicsReport(rms) == DynamicsResult(50, [QuietIssue])
    ensures rms != [] && Max(rms) != 0.0 ==>
      var r := DynamicsReport(rms);
      var range := DynamicRange(rms);
      var smooth := Smoothness(rms);
      && r.score == Trunc(range * 50.0 + smooth * 50.0) && 0 <= r.score < 100
      && (FlatIssue in r.issues <==> range < 0.3)
      && (UnsteadyIssue in r.issues <==> smooth < 0.4)
      && |r.issues| <= 2
      && (|r.issues| == 2 ==> r.issues == [FlatIssue, UnsteadyIssue])
  {
    if rms != [] && Max(rms) != 0.0 {
      var k :| 0 <= k < |rms| && rms[k] == Max(rms);
      assert Max(rms) > 0.0;
    }
  }

  /** A single non-silent frame always reads as unsteady. */
  lemma SingleFrameUnsteady(e: real)
    requires e > 0.0
    ensures UnsteadyIssue in DynamicsReport([e]).issues
  {
  }

  // ----- analyze_audio ------------------------------------------------

  /** What librosa yields for one recording. */
  datatype AudioSignal = AudioSignal(
    pitchFrames: seq<PitchFrame>,
    onsets: seq<real>,
    intervalStd: real,
    rms: seq<real>,
    duration: real)

  predicate ValidSignal(s: AudioSignal) {
    IsStd(s.intervalStd, Diffs(s.onsets)) && NonNegative(s.rms)
  }

  /** The dictionary `analyze_audio` returns. */
  datatype AudioResult = AudioResult(
    pitchAccuracy: int,
    rhythmAccuracy: int,
    dynamics: int,
    overallScore: int,
    pitchCurve: seq<CurvePoint>,
    beatAlignment: seq<real>,
    issues: seq<Issue>,
    duration: real)

  /** `int(pitch * 0.4 + rhythm * 0.35 + dynamics * 0.25)`. */
  function AudioOverall(pitch: int, rhythm: int, dynamics: int): (r: int)
    requires 0 <= pitch <= 100 && 0 <= rhythm <= 100 && 0 <= dynamics <= 100
    ensures 0 <= r <= 100
  {
    Trunc(pitch as real * 0.4 + rhythm as real * 0.35 + dynamics as real * 0.25)
  }

  function AudioReport(s: AudioSignal): AudioResult
    requires ValidSignal(s)
  {
    var p := PitchReport(s.pitchFrames);
    var r := RhythmReport(s.onsets, s.intervalStd);
    var d := DynamicsReport(s.rms);
    PitchReportInRange(s.pitchFrames);
    DynamicsInRange(s.rms);
    AudioResult(p.score, r.score, d.score, AudioOverall(p.score, r.score, d.score),
      p.curve, r.beats, p.issues + r.issues + d.issues, s.duration)
  }

  lemma PitchReportInRange(frames: seq<PitchFrame>)
    ensures 0 <= PitchReport(frames).score <= 100
  {
  }

  lemma DynamicsInRange(rms: seq<real>)
    requires NonNegative(rms)
    ensures 0 <= DynamicsReport(rms).score <= 100
  {
  }

  /** `analyze_audio`: the three analyses, their weighted sum and their issues in order. */
  method AnalyzeAudio(s: AudioSignal) returns (r: AudioResult)
    requires ValidSignal(s)
    ensures r == AudioReport(s)
  {
    var pitch := AnalyzePitch(s.pitchFrames);
    var rhythm := RhythmReport(s.onsets, s.intervalStd);
    var dynamics := DynamicsReport(s.rms);
    PitchReportInRange(s.pitchFrames);
    DynamicsInRange(s.rms);
    var overall := AudioOverall(pitch.score, rhythm.score, dynamics.score);
    r := AudioResult(pitch.score, rhythm.score, dynamics.score, overall,
      pitch.curve, rhythm.beats, pitch.issues + rhythm.issues + dynamics.issues, s.duration);
  }

  /**
   * Every score lies in [0, 100], the overall score lies between the lowest
   * and the highest of the three, and the issues are the pitch, rhythm and
   * dynamics issues in that order, at most four in all.
   */
  lemma AudioReportShape(s: AudioSignal)
    requires ValidSignal(s)
    ensures var r := AudioReport(s);
      && 0 <= r.pitchAccuracy <= 100 && 0 <= r.rhythmAccuracy <= 100 && 0 <= r.dynamics <= 100
      && 0 <= r.overallScore <= 100
      && r.overallScore <= Max3(r.pitchAccuracy, r.rhythmAccuracy, r.dynamics)
      && Min3(r.pitchAccuracy, r.rhythmAccuracy, r.dynamics) <= r.overallScore + 1
      && r.issues == PitchReport(s.pitchFrames).issues + RhythmReport(s.onsets, s.intervalStd).issues + DynamicsReport(s.rms).issues
      && |r.issues| <= 4
  {
    var p := PitchReport(s.pitchFrames);
    var r := RhythmReport(s.onsets, s.intervalStd);
    var d := DynamicsReport(s.rms);
    PitchReportInRange(s.pitchFrames);
    DynamicsInRange(s.rms);
    AudioOverallBetween(p.score, r.score, d.score);
    RhythmShape(s.onsets, s.intervalStd);
    DynamicsShape(s.rms);
    if VoicedDeviations(s.pitchFrames) != [] {
      PitchVoiced(s.pitchFrames);
    }
  }

  /** A weighted mean lies between the smallest and the largest of its terms, less the truncation. */
  lemma AudioOverallBetween(pitch: int, rhythm: int, dynamics: int)
    requires 0 <= pitch <= 100 && 0 <= rhythm <= 100 && 0 <= dynamics <= 100
    ensures AudioOverall(pitch, rhythm, dynamics) <= Max3(pitch, rhythm, dynamics)
    ensures Min3(pitch, rhythm, dynamics) <= AudioOverall(pitch, rhythm, dynamics) + 1
  {
    var hi := Max3(pitch, rhythm, dynamics) as real;
    var lo := Min3(pitch, rhythm, dynamics) as real;
    var x := pitch as real * 0.4 + rhythm as real * 0.35 + dynamics as real * 0.25;
    assert lo <= x <= hi;
  }

  function Max3(a: int, b: int, c: int): int {
    if a >= b && a >= c then a else if b >= c then b else c
  }

  function Min3(a: int, b: int, c: int): int {
    if a <= b && a <= c then a else if b <= c then b else c
  }
}
