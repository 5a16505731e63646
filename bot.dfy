/**
 * The configuration dispatch of bot.py: the administrator guard, the
 * callback-button handler that edits the streaming document, the
 * completeness check made before a stream is started, and the text
 * handler that answers the stream-key and scheduled-stop prompts.
 *
 * The document is the map `load_streaming` returns; a handler returns the
 * map it would save (the input map when it saves nothing). The per-user
 * prompt flags of `context.user_data` are a `Prompts` value. Calls into the
 * stream controller become a `Request`.
 */
module Bot {
  import opened Wrappers
  import opened Text
  import opened Document
  import opened Command
  import opened Locator

  const YoutubeRtmp := "rtmp://a.rtmp.youtube.com/live2"
  const FacebookRtmp := "rtmps://live-api-s.facebook.com:443/rtmp/"

  /** `context.user_data["awaiting_key"]` and `["awaiting_schedule"]`; an absent flag is false. */
  datatype Prompts = Prompts(awaitingKey: bool, awaitingSchedule: bool)

  /** What a handler asks of the stream controller. */
  datatype Request =
    | NoRequest
    | StartLive(recipient: int)      // `set_notifier(..., user_id)`, then `start_streaming()` on a new thread
    | StopLive                       // `await stop_streaming()`
    | ScheduleStop(seconds: int)     // `schedule_stop(minutes * 60)`

  /** `admin_only`: the wrapped handler runs only for a listed user. */
  predicate IsAdmin(adminIds: seq<int>, userId: int) {
    userId in adminIds
  }

  // ---------------------------------------------------------------------
  // The start_live completeness check
  // ---------------------------------------------------------------------

  /** The five things `start_live` checks, in the order it checks them. */
  datatype Setting = VideoSetting | RtmpSetting | KeySetting | ResolutionSetting | ModeSetting

  /** The text `start_live` lists for a missing setting. */
  function Label(setting: Setting): string {
    match setting
    case VideoSetting => "\U{1F39E} Video"
    case RtmpSetting => "\U{1F4E1} RTMP"
    case KeySetting => "\U{1F511} Stream Key"
    case ResolutionSetting => "\U{1F39A} Resolusi"
    case ModeSetting => "\U{1F4F1} Mode Live"
  }

  /** Different settings are listed under different texts. */
  lemma LabelsDistinct(a: Setting, b: Setting)
    requires a != b
    ensures Label(a) != Label(b)
  {
    assert Label(a)[0] != Label(b)[0];
  }

  /** The position of a setting in the order of the checks. */
  function Rank(setting: Setting): nat {
    match setting
    case VideoSetting => 0
    case RtmpSetting => 1
    case KeySetting => 2
    case ResolutionSetting => 3
    case ModeSetting => 4
  }

  /** The video entry is set and names an existing file. */
  predicate VideoReady(doc: Doc, fileExists: string -> bool) {
    Present(doc, "video_path") && fileExists(Format(doc["video_path"]))
  }

  /** Whether the check for one setting passes. */
  predicate Ready(doc: Doc, fileExists: string -> bool, setting: Setting) {
    match setting
    case VideoSetting => VideoReady(doc, fileExists)
    case RtmpSetting => Present(doc, "rtmp_url")
    case KeySetting => Present(doc, "stream_key")
    case ResolutionSetting => Present(doc, "resolution")
    case ModeSetting => Present(doc, "mode")
  }

  /** Everything `start_live` asks for is there. */
  predicate Complete(doc: Doc, fileExists: string -> bool) {
    VideoReady(doc, fileExists) && Present(doc, "rtmp_url") && Present(doc, "stream_key")
    && Present(doc, "resolution") && Present(doc, "mode")
  }

  /** The settings stand in strictly increasing rank. */
  predicate InRankOrder(settings: seq<Setting>) {
    forall i :: 0 < i < |settings| ==> Rank(settings[i - 1]) < Rank(settings[i])
  }

  /** `setting` when `failed`, else nothing. */
  function IfFailed(failed: bool, setting: Setting): seq<Setting> {
    if failed then [setting] else []
  }

  /** The settings `failed` holds for, in the order of the checks. */
  function Listed(failed: Setting -> bool): seq<Setting> {
    IfFailed(failed(VideoSetting), VideoSetting) + IfFailed(failed(RtmpSetting), RtmpSetting)
    + IfFailed(failed(KeySetting), KeySetting) + IfFailed(failed(ResolutionSetting), ResolutionSetting)
    + IfFailed(failed(ModeSetting), ModeSetting)
  }

  /** A setting is listed exactly when it failed. */
  lemma ListedMembers(failed: Setting -> bool)
    ensures forall setting :: setting in Listed(failed) <==> failed(setting)
  {
    forall setting ensures setting in Listed(failed) <==> failed(setting) {
      match setting
      case VideoSetting =>
      case RtmpSetting =>
      case KeySetting =>
      case ResolutionSetting =>
      case ModeSetting =>
    }
  }

  /** The listed settings keep the order of the checks. */
  lemma ListedInOrder(failed: Setting -> bool)
    ensures InRankOrder(Listed(failed))
  {
    var a := IfFailed(failed(VideoSetting), VideoSetting);
    var b := a + IfFailed(failed(RtmpSetting), RtmpSetting);
    var c := b + IfFailed(failed(KeySetting), KeySetting);
    var d := c + IfFailed(failed(ResolutionSetting), ResolutionSetting);
    assert forall x :: x in a ==> Rank(x) < 1;
    AppendInRankOrder(a, failed(RtmpSetting), RtmpSetting);
    AppendInRankOrder(b, failed(KeySetting), KeySetting);
    AppendInRankOrder(c, failed(ResolutionSetting), ResolutionSetting);
    AppendInRankOrder(d, failed(ModeSetting), ModeSetting);
  }

  /** Appending a setting ranked above everything listed keeps the order. */
  lemma AppendInRankOrder(settings: seq<Setting>, failed: bool, setting: Setting)
    requires InRankOrder(settings) && forall x :: x in settings ==> Rank(x) < Rank(setting)
    ensures InRankOrder(settings + IfFailed(failed, setting))
    ensures forall x :: x in settings + IfFailed(failed, setting) ==> Rank(x) <= Rank(setting)
  {
    if failed {
      assert settings[..] + [setting] == settings + IfFailed(failed, setting);
      if |settings| > 0 {
        assert settings[|settings| - 1] in settings;
      }
    } else {
      assert settings + IfFailed(failed, setting) == settings;
    }
  }

  /** The check failures of a document, in the order `start_live` makes the checks. */
  function Failing(doc: Doc, fileExists: string -> bool): seq<Setting> {
    Listed(setting => !Ready(doc, fileExists, setting))
  }

  /**
   * A setting is listed exactly when its check fails, the list keeps the
   * order of the checks, and it is empty exactly when the document is
   * complete.
   */
  lemma FailingShape(doc: Doc, fileExists: string -> bool)
    ensures forall setting :: setting in Failing(doc, fileExists) <==> !Ready(doc, fileExists, setting)
    ensures InRankOrder(Failing(doc, fileExists))
    ensures Failing(doc, fileExists) == [] <==> Complete(doc, fileExists)
  {
    var failed := setting => !Ready(doc, fileExists, setting);
    ListedMembers(failed);
    ListedInOrder(failed);
    if Failing(doc, fileExists) == [] {
      assert forall setting :: Ready(doc, fileExists, setting);
      assert Ready(doc, fileExists, VideoSetting) && Ready(doc, fileExists, RtmpSetting)
        && Ready(doc, fileExists, KeySetting) && Ready(doc, fileExists, ResolutionSetting)
        && Ready(doc, fileExists, ModeSetting);
    } else {
      var setting := Failing(doc, fileExists)[0];
      assert setting in Failing(doc, fileExists);
    }
  }

  /**
   * The `missing` list of `start_live`, built by successive appends (each
   * setting stands for its label): a setting is in it exactly when its
   * check fails, the settings keep the fixed order Video, RTMP, Stream Key,
   * Resolusi, Mode Live, and the list is empty exactly when the document
   * is complete.
   */
  method MissingConfig(doc: Doc, fileExists: string -> bool) returns (missing: seq<Setting>)
    ensures forall setting :: setting in missing <==> !Ready(doc, fileExists, setting)
    ensures InRankOrder(missing)
    ensures missing == [] <==> Complete(doc, fileExists)
  {
    missing := [];
    if !Present(doc, "video_path") || !fileExists(Format(doc["video_path"])) {
      missing := missing + [VideoSetting];
    }
    ghost var listed := IfFailed(!Ready(doc, fileExists, VideoSetting), VideoSetting);
    assert missing == listed;
    if !Present(doc, "rtmp_url") {
      missing := missing + [RtmpSetting];
    }
    listed := listed + IfFailed(!Ready(doc, fileExists, RtmpSetting), RtmpSetting);
    assert missing == listed;
    if !Present(doc, "stream_key") {
      missing := missing + [KeySetting];
    }
    listed := listed + IfFailed(!Ready(doc, fileExists, KeySetting), KeySetting);
    assert missing == listed;
    if !Present(doc, "resolution") {
      missing := missing + [ResolutionSetting];
    }
    listed := listed + IfFailed(!Ready(doc, fileExists, ResolutionSetting), ResolutionSetting);
    assert missing == listed;
    if !Present(doc, "mode") {
      missing := missing + [ModeSetting];
    }
    listed := listed + IfFailed(!Ready(doc, fileExists, ModeSetting), ModeSetting);
    assert missing == Listed(setting => !Ready(doc, fileExists, setting));
    FailingShape(doc, fileExists);
  }

  // ---------------------------------------------------------------------
  // button_handler
  // ---------------------------------------------------------------------

  /** The branch of `button_handler` a callback string selects. */
  datatype Button =
    | Upload | SetRtmp | RtmpYoutube | RtmpFacebook | SetKey | ChooseVideo
    | PickVideo           // `video_<name>`
    | SetResolution
    | PickResolution      // `res_<quality>`
    | SetMode | ModePortrait | ModeLandscape | ToggleLooping
    | StartLiveButton | StopLiveButton | ScheduleStopButton | DeleteVideo
    | DeleteFile          // `del_<name>`
    | ShowConfig | CheckStatus
    | Unknown

  /** The `if`/`elif` chain of `button_handler`, tested in source order. */
  function Classify(data: string): Button {
    if data == "upload" then Upload
    else if data == "set_rtmp" then SetRtmp
    else if data == "rtmp_youtube" then RtmpYoutube
    else if data == "rtmp_facebook" then RtmpFacebook
    else if data == "set_key" then SetKey
    else if data == "choose_video" then ChooseVideo
    else if StartsWith(data, "video_") then PickVideo
    else if data == "set_resolution" then SetResolution
    else if StartsWith(data, "res_") then PickResolution
    else if data == "set_mode" then SetMode
    else if data == "mode_portrait" then ModePortrait
    else if data == "mode_landscape" then ModeLandscape
    else if data == "toggle_looping" then ToggleLooping
    else if data == "start_live" then StartLiveButton
    else if data == "stop_live" then StopLiveButton
    else if data == "schedule_stop" then ScheduleStopButton
    else if data == "delete_video" then DeleteVideo
    else if StartsWith(data, "del_") then DeleteFile
    else if data == "show_config" then ShowConfig
    else if data == "check_status" then CheckStatus
    else Unknown
  }

  /** The two platform buttons reach their branches. */
  lemma ClassifyRtmpButtons()
    ensures Classify("rtmp_youtube") == RtmpYoutube
    ensures Classify("rtmp_facebook") == RtmpFacebook
  {
    assert "rtmp_youtube"[1] != "res_"[1];
    assert "rtmp_facebook"[1] != "res_"[1];
  }

  /** The stream-key button reaches its branch. */
  lemma ClassifyKeyButton()
    ensures Classify("set_key") == SetKey
  {
    assert "set_key"[0] != "res_"[0] && "set_key"[0] != "video_"[0];
  }

  /** The two orientation buttons reach their branches. */
  lemma ClassifyModeButtons()
    ensures Classify("mode_portrait") == ModePortrait
    ensures Classify("mode_landscape") == ModeLandscape
  {
    assert "mode_portrait"[0] == "mode_landscape"[0] == 'm';
    assert "mode_portrait"[5] != "mode_landscape"[5];
  }

  /** The Auto Looping button reaches its branch. */
  lemma ClassifyLoopingButton()
    ensures Classify("toggle_looping") == ToggleLooping
  {
    assert "toggle_looping"[0] == 't';
  }

  /** The Start Live button reaches the start branch. */
  lemma ClassifyStartLive()
    ensures Classify("start_live") == StartLiveButton
  {
    assert "start_live"[0] == 's' && "start_live"[1] == 't';
  }

  /** The Stop Live button reaches the stop branch. */
  lemma ClassifyStopLive()
    ensures Classify("stop_live") == StopLiveButton
  {
    assert "stop_live"[0] == 's' && "stop_live"[1] == 't';
  }

  /** The Jadwal Stop button reaches the schedule branch. */
  lemma ClassifyScheduleStop()
    ensures Classify("schedule_stop") == ScheduleStopButton
  {
    assert "schedule_stop"[0] == 's' && "schedule_stop"[1] == 'c';
  }

  /** Data starting with `video_` or `res_` reaches the Video or the Resolusi branch. */
  lemma ClassifyPrefixed(data: string)
    ensures StartsWith(data, "video_") ==> Classify(data) == PickVideo
    ensures StartsWith(data, "res_") ==> Classify(data) == PickResolution
  {
    if StartsWith(data, "video_") {
      assert data[0] == 'v';
    }
    if StartsWith(data, "res_") {
      assert data[0] == 'r' && data[1] == 'e';
      assert !StartsWith(data, "video_");
    }
  }

  /**
   * `button_handler` behind `admin_only`, by the branch the data selects.
   * Branches that only redraw the menu, list files or show the
   * configuration leave everything as it was; deleting a file is
   * file-system work outside the document.
   */
  method ButtonHandler(adminIds: seq<int>, userId: int, data: string, doc: Doc, prompts: Prompts,
                       fileExists: string -> bool)
    returns (newDoc: Doc, newPrompts: Prompts, request: Request)
    ensures !IsAdmin(adminIds, userId) ==> newDoc == doc && newPrompts == prompts && request == NoRequest
    ensures IsAdmin(adminIds, userId) ==>
      match Classify(data)
      case RtmpYoutube => newDoc == doc["rtmp_url" := Str(YoutubeRtmp)] && newPrompts == prompts && request == NoRequest
      case RtmpFacebook => newDoc == doc["rtmp_url" := Str(FacebookRtmp)] && newPrompts == prompts && request == NoRequest
      case SetKey => newDoc == doc && newPrompts == prompts.(awaitingKey := true) && request == NoRequest
      case PickVideo =>
        newDoc == doc["video_path" := Str(Join("videos", FieldAfter(data, "video_")))]
        && newPrompts == prompts && request == NoRequest
      case PickResolution =>
        newDoc == doc["resolution" := Str(FieldAfter(data, "res_"))] && newPrompts == prompts && request == NoRequest
      case ModePortrait => newDoc == doc["mode" := Str("portrait")] && newPrompts == prompts && request == NoRequest
      case ModeLandscape => newDoc == doc["mode" := Str("landscape")] && newPrompts == prompts && request == NoRequest
      case ToggleLooping =>
        newDoc == doc["looping" := Bool(!Truthy(Get(doc, "looping", Bool(false))))]
        && newPrompts == prompts && request == NoRequest
      case StartLiveButton =>
        newDoc == doc && newPrompts == prompts
        && request == (if Complete(doc, fileExists) then StartLive(userId) else NoRequest)
      case StopLiveButton => newDoc == doc && newPrompts == prompts && request == StopLive
      case ScheduleStopButton => newDoc == doc && newPrompts == prompts.(awaitingSchedule := true) && request == NoRequest
      case _ => newDoc == doc && newPrompts == prompts && request == NoRequest
  {
    newDoc, newPrompts, request := doc, prompts, NoRequest;
    if !IsAdmin(adminIds, userId) {
      return;
    }
    match Classify(data)
    case RtmpYoutube =>
      newDoc := newDoc["rtmp_url" := Str(YoutubeRtmp)];
    case RtmpFacebook =>
      newDoc := newDoc["rtmp_url" := Str(FacebookRtmp)];
    case SetKey =>
      newPrompts := newPrompts.(awaitingKey := true);
    case PickVideo =>
      var filename := FieldAfter(data, "video_");
      newDoc := newDoc["video_path" := Str(Join("videos", filename))];
    case PickResolution =>
      var res := FieldAfter(data, "res_");
      newDoc := newDoc["resolution" := Str(res)];
    case ModePortrait =>
      newDoc := newDoc["mode" := Str("portrait")];
    case ModeLandscape =>
      newDoc := newDoc["mode" := Str("landscape")];
    case ToggleLooping =>
      var looping := Get(newDoc, "looping", Bool(false));
      newDoc := newDoc["looping" := Bool(!Truthy(looping))];
    case StartLiveButton =>
      var missing := MissingConfig(newDoc, fileExists);
      if missing == [] {
        request := StartLive(userId);
      }
    case StopLiveButton =>
      request := StopLive;
    case ScheduleStopButton =>
      newPrompts := newPrompts.(awaitingSchedule := true);
    case _ =>
  }

  /** Toggling twice gives back a stored boolean. */
  lemma ToggleTwiceRestores(doc: Doc, b: bool)
    requires "looping" in doc && doc["looping"] == Bool(b)
    ensures var once := doc["looping" := Bool(!Truthy(Get(doc, "looping", Bool(false))))];
      once["looping" := Bool(!Truthy(Get(once, "looping", Bool(false))))] == doc
  {
  }

  /** A missing `looping` entry reads as false, so the first toggle switches looping on. */
  lemma ToggleMissingTurnsOn(doc: Doc)
    requires "looping" !in doc
    ensures !Truthy(Get(doc, "looping", Bool(false)))
  {
  }

  /**
   * The Facebook address already ends in a slash, and the stream URL adds
   * another: the key follows `/rtmp//`.
   */
  lemma FacebookUrlDoubleSlash(key: string)
    ensures Url(FacebookRtmp, key) == "rtmps://live-api-s.facebook.com:443/rtmp//" + key
  {
  }

  // ---------------------------------------------------------------------
  // The video pickers
  // ---------------------------------------------------------------------

  /** The picker test: the name ends, case-sensitively, in `.mp4`, `.mkv` or `.mov`. */
  predicate IsPickerName(name: string) {
    EndsWith(name, ".mp4") || EndsWith(name, ".mkv") || EndsWith(name, ".mov")
  }

  /** The files `choose_video` and `delete_video` offer, in listing order. */
  function PickerFiles(listing: seq<string>): (files: seq<string>)
    ensures forall f :: f in files <==> f in listing && IsPickerName(f)
    ensures |files| <= |listing|
  {
    if listing == [] then []
    else if IsPickerName(listing[0]) then [listing[0]] + PickerFiles(listing[1..])
    else PickerFiles(listing[1..])
  }

  /** Filtering a listing piecewise: the offered files keep the listing's order. */
  lemma {:induction false} PickerFilesAppend(a: seq<string>, b: seq<string>)
    ensures PickerFiles(a + b) == PickerFiles(a) + PickerFiles(b)
  {
    if a != [] {
      assert (a + b)[1..] == a[1..] + b;
      PickerFilesAppend(a[1..], b);
    } else {
      assert a + b == b;
    }
  }

  /** The callback data of the buttons `choose_video` shows. */
  function VideoButtons(listing: seq<string>): seq<string>
  {
    var files := PickerFiles(listing);
    seq(|files|, i requires 0 <= i < |files| => "video_" + files[i])
  }

  /** There is one button per offered file, and every one of them reaches the video branch of `button_handler`. */
  lemma VideoButtonsReachPicker(listing: seq<string>)
    ensures |VideoButtons(listing)| == |PickerFiles(listing)|
    ensures forall i :: 0 <= i < |VideoButtons(listing)| ==>
      StartsWith(VideoButtons(listing)[i], "video_") && Classify(VideoButtons(listing)[i]) == PickVideo
  {
    forall i | 0 <= i < |VideoButtons(listing)|
      ensures StartsWith(VideoButtons(listing)[i], "video_") && Classify(VideoButtons(listing)[i]) == PickVideo
    {
      var data := VideoButtons(listing)[i];
      assert data == "video_" + PickerFiles(listing)[i];
      assert data[..6] == "video_";
      ClassifyPrefixed(data);
    }
  }

  /** A name ending in the `k`-th supported extension is a video name. */
  lemma ExtensionIsVideo(name: string, k: int)
    requires 0 <= k < |VideoExtensions| && EndsWith(name, VideoExtensions[k])
    ensures IsVideoName(name)
  {
    var suffix := VideoExtensions[k];
    LowerKeepsSuffix(name, suffix);
    LowerNoUpper(suffix);
  }

  /** Every name a picker offers passes the stream controller's video test. */
  lemma PickerNamesAreVideos(name: string)
    requires IsPickerName(name)
    ensures IsVideoName(name)
  {
    if EndsWith(name, ".mp4") {
      ExtensionIsVideo(name, 0);
    } else if EndsWith(name, ".mkv") {
      ExtensionIsVideo(name, 1);
    } else {
      ExtensionIsVideo(name, 2);
    }
  }

  /**
   * When the walk of `videos` starts with the directory the pickers list and
   * they offer at least one file, the controller's video search finds a
   * video in that first directory: its answer is the first name of the
   * listing that passes the video test, which need not be an offered one.
   */
  lemma PickerListingFindsVideo(walk: seq<WalkEntry>, listing: seq<string>)
    requires walk != [] && walk[0] == WalkEntry("videos", listing) && PickerFiles(listing) != []
    ensures FirstInWalk(walk, IsVideoName).Some?
    ensures FirstInWalk(walk, IsVideoName) == FirstInDir("videos", listing, IsVideoName)
  {
    var f := PickerFiles(listing)[0];
    assert f in PickerFiles(listing);
    PickerNamesAreVideos(f);
    var j :| 0 <= j < |listing| && listing[j] == f;
    FirstInDirSpec("videos", listing, IsVideoName);
  }

  /** The converse fails: the controller accepts upper-case and further extensions the pickers never list. */
  lemma DiscoveryWiderThanPicker()
    ensures IsVideoName("clip.MP4") && !IsPickerName("clip.MP4")
    ensures IsVideoName("clip.avi") && !IsPickerName("clip.avi")
  {
    var upper := Lower(".MP4");
    assert upper[1] == 'm' && upper[2] == 'p';
    assert upper == ".mp4";
    LowerKeepsSuffix("clip.MP4", ".MP4");
    assert EndsWith(Lower("clip.MP4"), VideoExtensions[0]);
    assert "clip.MP4"[5] == 'M';
    ExtensionIsVideo("clip.avi", 3);
  }

  /**
   * Pressing a button `choose_video` offered selects that file: the
   * document's `video_path` becomes `videos/<name>`, provided the name does
   * not itself contain `video_` (a second occurrence would cut it short);
   * a listed name never contains a slash.
   */
  lemma VideoButtonSelects(listing: seq<string>, i: int)
    requires 0 <= i < |VideoButtons(listing)|
    requires !Contains(PickerFiles(listing)[i], "video_") && '/' !in PickerFiles(listing)[i]
    ensures StartsWith(VideoButtons(listing)[i], "video_")
    ensures FieldAfter(VideoButtons(listing)[i], "video_") == PickerFiles(listing)[i]
    ensures Join("videos", FieldAfter(VideoButtons(listing)[i], "video_")) == "videos/" + PickerFiles(listing)[i]
  {
    var f := PickerFiles(listing)[i];
    assert VideoButtons(listing)[i] == "video_" + f;
    VideoDataSelects(f);
  }

  /** The data `video_<f>` selects `videos/<f>` for a name without `video_` or a slash. */
  lemma VideoDataSelects(f: string)
    requires !Contains(f, "video_") && '/' !in f
    ensures StartsWith("video_" + f, "video_") && FieldAfter("video_" + f, "video_") == f
    ensures Join("videos", f) == "videos/" + f
  {
    FieldAfterPrefixed("video_", f);
    assert !StartsWith(f, "/") by {
      if |f| > 0 { assert f[0] in f; }
    }
  }

  /** A name holding `video_` loses everything from its second occurrence on. */
  lemma VideoButtonCut()
    ensures FieldAfter("video_" + "a_video_b.mp4", "video_") == "a_"
  {
    var data := "video_" + "a_video_b.mp4";
    var rest := data[6..];
    assert rest == "a_video_b.mp4";
    assert OccursAt(rest, "video_", 2) by { assert rest[2..8] == "video_"; }
    assert !OccursAt(rest, "video_", 0) by { assert rest[0] == 'a'; }
    assert !OccursAt(rest, "video_", 1) by { assert rest[1] == '_'; }
    assert FindFrom(rest, "video_", 0) == Some(2);
  }

  /** `res_<r>` stores `r` whenever `r` does not contain `res_`. */
  lemma ResButtonStores(r: string)
    requires !Contains(r, "res_")
    ensures StartsWith("res_" + r, "res_") && FieldAfter("res_" + r, "res_") == r
  {
    FieldAfterPrefixed("res_", r);
  }

  // ---------------------------------------------------------------------
  // message_handler
  // ---------------------------------------------------------------------

  /**
   * `message_handler` behind `admin_only`, for its two prompt branches.
   * `text` is the message text (`None` for a message without text) and
   * `parsed` what `int(text)` gives (`None` for the ValueError). A message
   * without text makes `.strip()` and `int()` raise errors the handler does
   * not catch, so nothing changes then. An upload is file-system work and
   * leaves the document and the prompts as they were.
   */
  method MessageHandler(adminIds: seq<int>, userId: int, doc: Doc, prompts: Prompts,
                        text: Option<string>, parsed: Option<int>)
    returns (newDoc: Doc, newPrompts: Prompts, request: Request)
    ensures !IsAdmin(adminIds, userId) || text.None? ==>
      newDoc == doc && newPrompts == prompts && request == NoRequest
    ensures IsAdmin(adminIds, userId) && prompts.awaitingKey && text.Some? ==>
      newDoc == doc["stream_key" := Str(Strip(text.value))]
      && newPrompts == prompts.(awaitingKey := false) && request == NoRequest
    ensures IsAdmin(adminIds, userId) && !prompts.awaitingKey && prompts.awaitingSchedule && text.Some? ==>
      newDoc == doc && newPrompts == prompts.(awaitingSchedule := false)
      && request == (if parsed.Some? then ScheduleStop(parsed.value * 60) else NoRequest)
    ensures !prompts.awaitingKey && !prompts.awaitingSchedule ==>
      newDoc == doc && newPrompts == prompts && request == NoRequest
  {
    newDoc, newPrompts, request := doc, prompts, NoRequest;
    if !IsAdmin(adminIds, userId) {
      return;
    }
    if prompts.awaitingKey {
      if text.None? {
        return;
      }
      newDoc := newDoc["stream_key" := Str(Strip(text.value))];
      newPrompts := newPrompts.(awaitingKey := false);
    } else if prompts.awaitingSchedule {
      if text.None? {
        return;
      }
      if parsed.Some? {
        request := ScheduleStop(parsed.value * 60);
      }
      newPrompts := newPrompts.(awaitingSchedule := false);
    }
  }

  /** The stored key is already stripped: storing it again would not change it. */
  lemma StoredKeyIsStripped(doc: Doc, text: string)
    ensures var stored := doc["stream_key" := Str(Strip(text))]["stream_key"];
      stored.Str? && Strip(stored.s) == stored.s
  {
    StripIdempotent(text);
  }
}
