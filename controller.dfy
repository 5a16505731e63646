/**
 * The module-level state of livestream.py and the three functions that
 * change it, `set_notifier`, `start_streaming` and `stop_streaming`, as a
 * class whose methods update the fields step by step. Each method is proved
 * to leave the state the functions of module Session compute, and the
 * properties of those functions are proved in module SessionProperties.
 */
module Controller {
  import opened Wrappers
  import opened Document
  import opened Presets
  import opened Command
  import opened Locator
  import opened Session

  class StreamController {
    var active: bool          // streaming_active
    var hasHandle: bool       // ffmpeg_process is not None
    var lockPresent: bool     // ffmpeg.lock exists
    var notifications: seq<string>
    var retries: nat
    ghost var launches: nat
    var notifierSet: bool     // send_status_message is not None
    var recipient: int        // current_user_id

    ghost function State(): SessionState
      reads this
    {
      SessionState(active, hasHandle, lockPresent, notifications, retries, launches)
    }

    /** The state at import time: nothing streaming, nothing registered. */
    constructor ()
      ensures State() == SessionState(false, false, false, [], 0, 0)
      ensures !notifierSet
    {
      active, hasHandle, lockPresent := false, false, false;
      notifications, retries, launches := [], 0, 0;
      notifierSet, recipient := false, 0;
    }

    /** `set_notifier`: the registration is overwritten; the session state is untouched. */
    method SetNotifier(userId: int)
      modifies this`notifierSet, this`recipient
      ensures notifierSet && recipient == userId
      ensures State() == old(State())
    {
      notifierSet, recipient := true, userId;
    }

    /** `if send_status_message: ... send_status_message(current_user_id, msg)`. */
    method Notify(msg: string)
      modifies this`notifications
      ensures State() == Say(old(State()), notifierSet, msg)
    {
      if notifierSet {
        notifications := notifications + [msg];
      }
    }

    /** `stop_streaming`. */
    method StopStreaming()
      modifies this`active, this`hasHandle, this`lockPresent, this`notifications
      ensures State() == Stopped(old(State()), notifierSet)
      ensures !active && !hasHandle
      ensures old(hasHandle) ==>
        !lockPresent && notifications == old(notifications) + (if notifierSet then [StoppedMsg] else [])
      ensures !old(hasHandle) ==> lockPresent == old(lockPresent) && notifications == old(notifications)
    {
      active := false;
      if hasHandle {
        hasHandle := false;
        if lockPresent {
          lockPresent := false;
        }
        Notify(StoppedMsg);
      }
    }

    /** `start_streaming`: the flag is raised, the checks are made, then the attempt loop runs. */
    method StartStreaming(host: Host, script: seq<Outcome>) returns (ending: Ending)
      modifies this`active, this`hasHandle, this`lockPresent, this`notifications, this`retries, this`launches
      ensures (State(), ending) == StartSpec(old(State()), notifierSet, host, script)
    {
      active := true;
      var prepared := Setup(host);
      match prepared
      case Failed(e, message) =>
        if message.Some? {
          Notify(message.value);
        }
        return e;
      case Ready(command, looping) =>
        var horizon := AttemptLoop(looping, script);
        return Ran(command, horizon);
    }

    /**
     * The checks of `start_streaming` before its outer loop, in source
     * order: the configuration, the executable, the two required keys, the
     * input video; then the preset, the orientation and the argument list.
     * They change no field; a failed check names how `start_streaming`
     * ends and the message it sends.
     */
    method Setup(host: Host) returns (prepared: Prepared)
      ensures prepared == Prepare(host)
    {
      if host.config.LoadFailed? {
        return Failed(ConfigUnreadable, Some(StartFailedMsg(host.config.reason)));
      }
      var cfg := host.config.doc;
      var ffmpegPath := FindFfmpeg(host.which, host.appWalk);
      if ffmpegPath.None? {
        return Failed(FfmpegNotFound, Some(StartFailedMsg(FfmpegMissingReason)));
      }
      if "rtmp_url" !in cfg || "stream_key" !in cfg {
        return Failed(KeyMissing, None);
      }
      var url := Url(Format(cfg["rtmp_url"]), Format(cfg["stream_key"]));
      var quality := Get(cfg, "resolution", Str(DefaultQuality));
      var mode := Format(Get(cfg, "mode", Str("landscape")));
      var looping := Truthy(Get(cfg, "looping", Bool(false)));

      var input: string;
      if !Present(cfg, "video_path") {
        var found := FindFirstVideo(host.videosWalk);
        if found.None? {
          return Failed(NoVideoFound, Some(NoVideoMsg));
        }
        input := found.value;
      } else {
        input := Format(cfg["video_path"]);
      }
      if !host.fileExists(input) {
        return Failed(VideoNotFound(input), Some(VideoMissingMsg(input)));
      }
      if !Get(cfg, "mode", Str("landscape")).Str? {
        // the first attempt's progress line upper-cases `mode`
        return Failed(ModeNotText, None);
      }

      var preset := PresetFor(quality);
      PresetAdjustable(quality, mode);
      var finalResolution := AdjustResolution(preset.resolution, mode).value;
      var inv := Invocation(ffmpegPath.value, looping, input, finalResolution, preset.fps,
                            preset.videoBitrate, preset.maxrate, preset.bufsize,
                            preset.audioBitrate, url);
      assert inv == InvocationFor(cfg, ffmpegPath.value, input);
      return Ready(Arguments(inv), looping);
    }

    /**
     * One attempt of the retry loop: spawn the encoder, write the lock,
     * announce the first attempt of a pass, and react to how it ended.
     * Returns true when the retry loop breaks.
     */
    method LaunchOnce(outcome: Outcome) returns (breaks: bool)
      modifies this`active, this`hasHandle, this`lockPresent, this`notifications, this`retries, this`launches
      ensures Step(State(), breaks) == Attempt(old(State()), outcome, notifierSet)
    {
      if outcome.LaunchError? {
        Notify(EncoderErrorMsg(outcome.reason));
        return true;
      }
      hasHandle, lockPresent, launches := true, true, launches + 1;
      if retries == 0 {
        Notify(StartedMsg);
      }
      assert State() == Spawned(old(State()), notifierSet);
      if outcome.StopDuringRun? {
        StopStreaming();
        Notify(EncoderErrorMsg(HandleGoneReason));
        return true;
      }
      var code := outcome.code;
      if code != 0 {
        retries := retries + 1;
      }
      if outcome.ExitThenStop? {
        StopStreaming();
      }
      return code == 0;
    }

    /**
     * The retry loop of `start_streaming`, reading the script from
     * position `from`. Returns the position of the next unread outcome and
     * whether the script ran out first.
     */
    method RetryPass(script: seq<Outcome>, from: nat) returns (next: nat, horizon: bool)
      requires from <= |script|
      modifies this`active, this`hasHandle, this`lockPresent, this`notifications, this`retries, this`launches
      ensures Pass(old(State()), script, from, notifierSet) == Progress(State(), next, horizon)
    {
      ghost var pass := Pass(State(), script, from, notifierSet);
      next := from;
      while retries <= MaxRetries && active
        invariant from <= next <= |script|
        invariant Pass(State(), script, next, notifierSet) == pass
        decreases |script| - next
      {
        if next == |script| {
          return next, true;
        }
        var outcome := script[next];
        next := next + 1;
        var ends := LaunchOnce(outcome);
        if ends {
          return next, false;
        }
      }
      return next, false;
    }

    /**
     * The outer loop of `start_streaming`, then the removal of the lock
     * file and the exhaustion report. Returns true when the script ran out
     * before the loops ended.
     */
    method AttemptLoop(looping: bool, script: seq<Outcome>) returns (horizon: bool)
      modifies this`active, this`hasHandle, this`lockPresent, this`notifications, this`retries, this`launches
      ensures State() == Run(old(State()), script, notifierSet, looping).s
      ensures horizon == Run(old(State()), script, notifierSet, looping).horizon
    {
      ghost var goal := Loop(State(), script, 0, notifierSet, looping);
      var k := 0;
      while active
        invariant k <= |script|
        invariant Loop(State(), script, k, notifierSet, looping) == goal
        decreases |script| - k
      {
        retries := 0;
        var ranOut;
        k, ranOut := RetryPass(script, k);
        if ranOut {
          return true;
        }
        if !looping || !active {
          break;
        }
      }
      Wrap();
      return false;
    }

    /** After the outer loop: the lock file is removed, and an exhausted last pass reported. */
    method Wrap()
      modifies this`lockPresent, this`notifications
      ensures State() == Finish(old(State()), notifierSet)
    {
      if lockPresent {
        lockPresent := false;
      }
      if retries > MaxRetries {
        Notify(ExhaustedMsg);
      }
    }
  }
}
