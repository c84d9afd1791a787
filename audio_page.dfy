/**
 * pages/audio/audio.js: the player page.  The inner audio context is a
 * device the page drives; what the page asks of it (play, pause, seek) is
 * recorded in order, and the times it reports come in as parameters.
 */
module AudioPage {
  import opened Wrappers
  import Util

  /** A request the page sends to the inner audio context. */
  datatype Command = Play | Pause | Seek(position: real)

  /** The inner audio context: its source, the name captured by `onCanplay`, and what it was asked. */
  datatype Player = Player(src: string, name: Option<string>, commands: seq<Command>, destroyed: bool)

  /** `data.audioInfo`. */
  datatype AudioInfo = AudioInfo(name: string, duration: int, durationText: string)

  const DefaultName := "录音文件"
  const SkipSeconds := 5.0

  /** `name || '录音文件'`. */
  function DisplayName(name: Option<string>): (r: string)
    ensures name.Some? && name.value != "" ==> r == name.value
    ensures name.None? || name.value == "" ==> r == DefaultName
  {
    if name.Some? && name.value != "" then name.value else DefaultName
  }

  /** The `audioInfo` `onCanplay` shows for a context reporting `ctxDuration` seconds. */
  function LoadedInfo(name: Option<string>, ctxDuration: real): AudioInfo
    requires 0.0 <= ctxDuration
  {
    var duration := ctxDuration.Floor;
    AudioInfo(DisplayName(name), duration, Util.FormatTime(duration))
  }

  /** On load the duration is the whole seconds of the context's, shown as mm:ss with seconds below 60. */
  lemma LoadedInfoShape(name: Option<string>, ctxDuration: real)
    requires 0.0 <= ctxDuration
    ensures var info := LoadedInfo(name, ctxDuration);
      && 0 <= info.duration
      && info.duration as real <= ctxDuration < info.duration as real + 1.0
      && Util.ParseClock(info.durationText) == Some((info.duration / 60, info.duration % 60))
      && info.duration % 60 < 60
      && (info.duration < 6000 ==> |info.durationText| == 5 && info.durationText[2] == ':')
  {
    var d := ctxDuration.Floor;
    Util.FormatTimeRoundTrip(d);
    if d < 6000 {
      Util.FormatTimeShape(d);
    }
  }

  /** `Math.max(0, currentTime - 5)`. */
  function RewindTarget(currentTime: real): real {
    if 0.0 < currentTime - SkipSeconds then currentTime - SkipSeconds else 0.0
  }

  /** `Math.min(audioInfo.duration, currentTime + 5)`. */
  function ForwardTarget(duration: int, currentTime: real): real {
    if duration as real < currentTime + SkipSeconds then duration as real else currentTime + SkipSeconds
  }

  /** Rewinding goes back five seconds, but never before the start. */
  lemma RewindBounds(currentTime: real)
    ensures var r := RewindTarget(currentTime);
      && 0.0 <= r && currentTime - SkipSeconds <= r
      && (r == 0.0 || r == currentTime - SkipSeconds)
      && (0.0 <= currentTime ==> r <= currentTime)
  {
  }

  /** Forwarding goes five seconds on, but never past the loaded duration. */
  lemma ForwardBounds(duration: int, currentTime: real)
    ensures var r := ForwardTarget(duration, currentTime);
      && r <= duration as real && r <= currentTime + SkipSeconds
      && (r == duration as real || r == currentTime + SkipSeconds)
  {
  }

  /**
   * Before `onCanplay` has run the page's duration is still 0, so a
   * forward at any non-negative time seeks to the start.
   */
  lemma ForwardBeforeCanplay(currentTime: real)
    requires 0.0 <= currentTime
    ensures ForwardTarget(0, currentTime) == 0.0
  {
  }

  class AudioPageData {
    var audioLoaded: bool
    var isPlaying: bool
    var currentPosition: int
    var audioInfo: AudioInfo
    /** `_innerAudioContext` (None: null) */
    var context: Option<Player>

    /** The page's initial `data`. */
    constructor ()
      ensures !audioLoaded && !isPlaying && currentPosition == 0
      ensures audioInfo == AudioInfo("", 0, "00:00") && context == None
    {
      audioLoaded, isPlaying, currentPosition := false, false, 0;
      audioInfo := AudioInfo("", 0, "00:00");
      context := None;
    }

    /** `loadAudio(filePath, name)`: a fresh context replaces the page's; nothing is shown until it can play. */
    method LoadAudio(filePath: string, name: Option<string>)
      modifies this
      ensures context == Some(Player(filePath, name, [], false))
      ensures audioLoaded == old(audioLoaded) && isPlaying == old(isPlaying)
      ensures currentPosition == old(currentPosition) && audioInfo == old(audioInfo)
    {
      context := Some(Player(filePath, name, [], false));
    }

    /** `onLoad(options)`: a `filePath` option loads that file, without a name. */
    method OnLoad(filePath: Option<string>)
      modifies this
      ensures filePath.Some? && filePath.value != "" ==> context == Some(Player(filePath.value, None, [], false))
      ensures !(filePath.Some? && filePath.value != "") ==> context == old(context)
      ensures audioLoaded == old(audioLoaded) && isPlaying == old(isPlaying)
      ensures currentPosition == old(currentPosition) && audioInfo == old(audioInfo)
    {
      if filePath.Some? && filePath.value != "" {
        LoadAudio(filePath.value, None);
      }
    }

    /** The context's `onCanplay`, reporting its duration in seconds. */
    method OnCanplay(ctxDuration: real)
      requires context.Some? && 0.0 <= ctxDuration
      modifies this
      ensures audioLoaded && audioInfo == LoadedInfo(old(context).value.name, ctxDuration)
      ensures isPlaying == old(isPlaying) && currentPosition == old(currentPosition) && context == old(context)
    {
      var duration := ctxDuration.Floor;
      var minutes := Util.PadTwo(duration / 60);
      var seconds := Util.PadTwo(duration % 60);
      audioLoaded := true;
      audioInfo := AudioInfo(DisplayName(context.value.name), duration, minutes + ":" + seconds);
    }

    /** The context's `onTimeUpdate`, reporting its current time. */
    method OnTimeUpdate(currentTime: real)
      requires context.Some? && 0.0 <= currentTime
      modifies this
      ensures currentPosition == currentTime.Floor
      ensures 0 <= currentPosition && currentPosition as real <= currentTime
      ensures audioLoaded == old(audioLoaded) && isPlaying == old(isPlaying)
      ensures audioInfo == old(audioInfo) && context == old(context)
    {
      currentPosition := currentTime.Floor;
    }

    /** The context's `onEnded`: back to the start, not playing. */
    method OnEnded()
      requires context.Some?
      modifies this
      ensures !isPlaying && currentPosition == 0
      ensures audioLoaded == old(audioLoaded) && audioInfo == old(audioInfo) && context == old(context)
    {
      isPlaying, currentPosition := false, 0;
    }

    /** Send one command to the context. */
    method Send(c: Command)
      requires context.Some?
      modifies this
      ensures context == Some(old(context).value.(commands := old(context).value.commands + [c]))
      ensures audioLoaded == old(audioLoaded) && isPlaying == old(isPlaying)
      ensures currentPosition == old(currentPosition) && audioInfo == old(audioInfo)
    {
      context := Some(context.value.(commands := context.value.commands + [c]));
    }

    /** `togglePlay`: pause while playing, play otherwise, and flip `isPlaying`; nothing without a context. */
    method TogglePlay()
      modifies this
      ensures old(context).None? ==> context == None && isPlaying == old(isPlaying)
      ensures old(context).Some? ==>
        && isPlaying == !old(isPlaying)
        && context == Some(old(context).value.(commands := old(context).value.commands + [if old(isPlaying) then Pause else Play]))
      ensures audioLoaded == old(audioLoaded) && currentPosition == old(currentPosition) && audioInfo == old(audioInfo)
    {
      if context.None? {
        return;
      }
      if isPlaying {
        Send(Pause);
      } else {
        Send(Play);
      }
      isPlaying := !isPlaying;
    }

    /** `rewind` at the context's current time. */
    method Rewind(currentTime: real)
      modifies this
      ensures old(context).None? ==> context == None
      ensures old(context).Some? ==>
        context == Some(old(context).value.(commands := old(context).value.commands + [Seek(RewindTarget(currentTime))]))
      ensures audioLoaded == old(audioLoaded) && isPlaying == old(isPlaying)
      ensures currentPosition == old(currentPosition) && audioInfo == old(audioInfo)
    {
      if context.None? {
        return;
      }
      var target := currentTime - SkipSeconds;
      if target < 0.0 {
        target := 0.0;
      }
      Send(Seek(target));
    }

    /** `forward` at the context's current time, bounded by the duration the page shows. */
    method Forward(currentTime: real)
      modifies this
      ensures old(context).None? ==> context == None
      ensures old(context).Some? ==>
        context == Some(old(context).value.(commands := old(context).value.commands +
                                                        [Seek(ForwardTarget(old(audioInfo).duration, currentTime))]))
      ensures audioLoaded == old(audioLoaded) && isPlaying == old(isPlaying)
      ensures currentPosition == old(currentPosition) && audioInfo == old(audioInfo)
    {
      if context.None? {
        return;
      }
      var target := currentTime + SkipSeconds;
      if audioInfo.duration as real < target {
        target := audioInfo.duration as real;
      }
      Send(Seek(target));
    }

    /** `onSeek`: seek to the slider's value. */
    method OnSeek(value: real)
      modifies this
      ensures old(context).None? ==> context == None
      ensures old(context).Some? ==>
        context == Some(old(context).value.(commands := old(context).value.commands + [Seek(value)]))
      ensures audioLoaded == old(audioLoaded) && isPlaying == old(isPlaying)
      ensures currentPosition == old(currentPosition) && audioInfo == old(audioInfo)
    {
      if context.None? {
        return;
      }
      Send(Seek(value));
    }

    /** `onUnload`: destroy the context, if any. */
    method OnUnload()
      modifies this
      ensures old(context).None? ==> context == None
      ensures old(context).Some? ==> context == Some(old(context).value.(destroyed := true))
      ensures audioLoaded == old(audioLoaded) && isPlaying == old(isPlaying)
      ensures currentPosition == old(currentPosition) && audioInfo == old(audioInfo)
    {
      if context.Some? {
        context := Some(context.value.(destroyed := true));
      }
    }
  }
}
