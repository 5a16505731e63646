/**
 * The stream session controller of livestream.py, as values: the session
 * state, the effect of `stop_streaming`, one encoder attempt, one pass of
 * the retry loop, the outer (looping) loop and the whole of
 * `start_streaming`. The class in controller.dfy runs these steps in place
 * and is proved to end in the state these functions compute.
 *
 * The encoder is replaced by a script: one `Outcome` per launch attempt,
 * consumed in order. When the script runs out while the controller would
 * launch again, the run stops there ("horizon"): nothing after that point
 * is observed.
 */
module Session {
  import opened Wrappers
  import opened Document
  import opened Presets
  import opened Command
  import opened Locator

  /** `MAX_RETRIES`: a pass makes at most MaxRetries + 1 launches. */
  const MaxRetries := 3

  // ---------------------------------------------------------------------
  // Notification texts
  // ---------------------------------------------------------------------

  /** The mark every failure message starts with. */
  const ErrorMark := "\U{1F6AB} "

  const StartedMsg := "\U{2705} Live berhasil dimulai!"
  const ExhaustedMsg := ErrorMark + "Gagal menjalankan live setelah beberapa percobaan."
  const StoppedMsg := "\U{1F6D1} Live streaming dihentikan."
  const NoVideoMsg := ErrorMark + "[ERROR] Tidak ditemukan file video di folder videos."

  /** The text of the error `find_ffmpeg` raises. */
  const FfmpegMissingReason := "[ERROR] ffmpeg executable tidak ditemukan.\nPastikan ffmpeg tersedia di PATH atau folder lokal project."
  /** The text of the error raised when the monitor reads the exit code of a handle `stop_streaming` has cleared. */
  const HandleGoneReason := "'NoneType' object has no attribute 'returncode'"

  function StartFailedMsg(reason: string): string {
    ErrorMark + "Gagal memulai live: " + reason
  }

  function EncoderErrorMsg(reason: string): string {
    ErrorMark + "Error FFmpeg: " + reason
  }

  function VideoMissingMsg(path: string): string {
    ErrorMark + "[ERROR] File video tidak ditemukan: " + path
  }

  // ---------------------------------------------------------------------
  // State
  // ---------------------------------------------------------------------

  /**
   * The module-level session state: `streaming_active`, whether
   * `ffmpeg_process` holds a handle, whether `ffmpeg.lock` exists, the
   * messages handed to the notifier so far, the retry counter, and how
   * many encoder processes were spawned.
   */
  datatype SessionState = SessionState(
    active: bool, hasHandle: bool, lockPresent: bool,
    notifications: seq<string>, retries: nat, launches: nat)

  /** What the encoder does on one attempt. */
  datatype Outcome =
    | Exit(code: int)            // the process ran and exited with this code
    | LaunchError(reason: string) // spawning the process raised
    | StopDuringRun              // `stop_streaming` ran to completion while the monitor polled
    | ExitThenStop(code: int)    // the process exited, then `stop_streaming` ran before the next guard

  predicate IsStop(o: Outcome) {
    o.StopDuringRun? || o.ExitThenStop?
  }

  /** A message goes to the notifier only when one is registered. */
  function Say(s: SessionState, notify: bool, msg: string): SessionState {
    if notify then s.(notifications := s.notifications + [msg]) else s
  }

  // ---------------------------------------------------------------------
  // stop_streaming
  // ---------------------------------------------------------------------

  /**
   * `stop_streaming`: the flag drops; a held handle is signalled, waited for
   * (or killed) and cleared, the lock file removed and the stop announced.
   */
  function Stopped(s: SessionState, notify: bool): SessionState {
    var t := s.(active := false);
    if s.hasHandle then Say(t.(hasHandle := false, lockPresent := false), notify, StoppedMsg) else t
  }

  /**
   * After a stop nothing streams and no handle is held; a held handle's
   * lock file is gone and the stop announced; without a handle only the
   * flag changes.
   */
  lemma StoppedEffect(s: SessionState, notify: bool)
    ensures var t := Stopped(s, notify);
      !t.active && !t.hasHandle
      && (s.hasHandle ==> t == s.(active := false, hasHandle := false, lockPresent := false,
                                  notifications := s.notifications + (if notify then [StoppedMsg] else [])))
      && (!s.hasHandle ==> t == s.(active := false))
  {
  }

  // ---------------------------------------------------------------------
  // The attempt loop of start_streaming
  // ---------------------------------------------------------------------

  /** A successful spawn: the handle is held, the lock written, and the first attempt of a pass announced. */
  function Spawned(s: SessionState, notify: bool): SessionState {
    Say(s.(hasHandle := true, lockPresent := true, launches := s.launches + 1),
        notify && s.retries == 0, StartedMsg)
  }

  /** The state after one attempt, and whether the retry loop breaks. */
  datatype Step = Step(s: SessionState, breaks: bool)

  function Attempt(s: SessionState, o: Outcome, notify: bool): Step {
    match o
    case LaunchError(reason) => Step(Say(s, notify, EncoderErrorMsg(reason)), true)
    case Exit(code) =>
      var t := Spawned(s, notify);
      if code != 0 then Step(t.(retries := t.retries + 1), false) else Step(t, true)
    case StopDuringRun =>
      Step(Say(Stopped(Spawned(s, notify), notify), notify, EncoderErrorMsg(HandleGoneReason)), true)
    case ExitThenStop(code) =>
      var t := Spawned(s, notify);
      var u := if code != 0 then t.(retries := t.retries + 1) else t;
      Step(Stopped(u, notify), code == 0)
  }

  /** Where a loop ended: the state, the position of the next unread outcome, and whether the script ran out first. */
  datatype Progress = Progress(s: SessionState, next: nat, horizon: bool)

  /**
   * One pass of the retry loop, `while retries <= MAX_RETRIES and
   * streaming_active`, reading the script from position `i`.
   */
  function Pass(s: SessionState, script: seq<Outcome>, i: nat, notify: bool): (r: Progress)
    requires i <= |script|
    ensures i <= r.next <= |script|
    ensures r.horizon ==> r.next == |script|
    ensures s.active && s.retries <= MaxRetries && !r.horizon ==> r.next > i
    decreases |script| - i
  {
    if !(s.retries <= MaxRetries && s.active) then Progress(s, i, false)
    else if i == |script| then Progress(s, i, true)
    else
      var st := Attempt(s, script[i], notify);
      if st.breaks then Progress(st.s, i + 1, false)
      else Pass(st.s, script, i + 1, notify)
  }

  /**
   * The outer loop, `while streaming_active`: each round resets `retries`
   * and runs a pass; the loop is left unless looping is on and the
   * session is still active.
   */
  function Loop(s: SessionState, script: seq<Outcome>, i: nat, notify: bool, looping: bool): (r: Progress)
    requires i <= |script|
    ensures i <= r.next <= |script|
    decreases |script| - i
  {
    if !s.active then Progress(s, i, false)
    else
      var p := Pass(s.(retries := 0), script, i, notify);
      if p.horizon || !looping || !p.s.active then p
      else Loop(p.s, script, p.next, notify, looping)
  }

  /** After the outer loop: the lock file is removed and an exhausted last pass is reported. */
  function Finish(s: SessionState, notify: bool): SessionState {
    Say(s.(lockPresent := false), notify && s.retries > MaxRetries, ExhaustedMsg)
  }

  /** Everything `start_streaming` does from its outer loop on. */
  function Run(s: SessionState, script: seq<Outcome>, notify: bool, looping: bool): Progress {
    var p := Loop(s, script, 0, notify, looping);
    if p.horizon then p else p.(s := Finish(p.s, notify))
  }

  // ---------------------------------------------------------------------
  // The set-up part of start_streaming
  // ---------------------------------------------------------------------

  /** `load_config()`: the document, or the text of the error it raised. */
  datatype ConfigLoad = Loaded(doc: Doc) | LoadFailed(reason: string)

  /** What the controller finds on the host: the configuration, the executable lookups, the video folder, the file system. */
  datatype Host = Host(
    config: ConfigLoad, which: Option<string>, appWalk: seq<WalkEntry>,
    videosWalk: seq<WalkEntry>, fileExists: string -> bool)

  /** How `start_streaming` ended. */
  datatype Ending =
    | ConfigUnreadable
    | FfmpegNotFound
    | KeyMissing              // `config['rtmp_url']` or `config['stream_key']` raised KeyError, uncaught
    | NoVideoFound
    | VideoNotFound(path: string)
    | ModeNotText             // `mode.upper()` on a non-string `mode` raised AttributeError, uncaught
    | Ran(command: seq<string>, horizon: bool)

  datatype Prepared =
    | Failed(ending: Ending, message: Option<string>)
    | Ready(command: seq<string>, looping: bool)

  /** The encoder invocation built from a loaded document. */
  function InvocationFor(cfg: Doc, exe: string, input: string): Invocation
    requires "rtmp_url" in cfg && "stream_key" in cfg
  {
    var preset := PresetFor(Get(cfg, "resolution", Str(DefaultQuality)));
    var mode := Format(Get(cfg, "mode", Str("landscape")));
    PresetAdjustable(Get(cfg, "resolution", Str(DefaultQuality)), mode);
    Invocation(exe, Truthy(Get(cfg, "looping", Bool(false))), input,
               AdjustResolution(preset.resolution, mode).value, preset.fps,
               preset.videoBitrate, preset.maxrate, preset.bufsize, preset.audioBitrate,
               Url(Format(cfg["rtmp_url"]), Format(cfg["stream_key"])))
  }

  /** The input file: the configured one, else the first video of the folder. */
  function InputFor(cfg: Doc, videosWalk: seq<WalkEntry>): Option<string> {
    if Present(cfg, "video_path") then Some(Format(cfg["video_path"]))
    else FirstInWalk(videosWalk, IsVideoName)
  }

  /** The checks before the attempt loop, in the order `start_streaming` makes them. */
  function Prepare(host: Host): Prepared {
    match host.config
    case LoadFailed(reason) => Failed(ConfigUnreadable, Some(StartFailedMsg(reason)))
    case Loaded(cfg) =>
      match FfmpegLookup(host.which, host.appWalk)
      case None => Failed(FfmpegNotFound, Some(StartFailedMsg(FfmpegMissingReason)))
      case Some(exe) =>
        if "rtmp_url" !in cfg || "stream_key" !in cfg then Failed(KeyMissing, None)
        else
          match InputFor(cfg, host.videosWalk)
          case None => Failed(NoVideoFound, Some(NoVideoMsg))
          case Some(input) =>
            if !host.fileExists(input) then Failed(VideoNotFound(input), Some(VideoMissingMsg(input)))
            else if !Get(cfg, "mode", Str("landscape")).Str? then Failed(ModeNotText, None)
            else
              var inv := InvocationFor(cfg, exe, input);
              Ready(Arguments(inv), inv.looping)
  }

  /** `start_streaming` as a whole, from the state it is called in. */
  function StartSpec(s: SessionState, notify: bool, host: Host, script: seq<Outcome>): (SessionState, Ending) {
    var s1 := s.(active := true);
    match Prepare(host)
    case Failed(ending, message) =>
      (if message.Some? then Say(s1, notify, message.value) else s1, ending)
    case Ready(command, looping) =>
      var p := Run(s1, script, notify, looping);
      (p.s, Ran(command, p.horizon))
  }
}
