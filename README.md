# Live-streaming bot: stream controller and configuration dispatch

This project models the two parts of the live-streaming bot that hold its
logic:

- the stream controller of `livestream.py`. Its module-level state is
  `streaming_active`, the encoder handle, the `ffmpeg.lock` file and the
  registered notifier; `start_streaming` also keeps a local retry counter.
  Three operations change that state: `set_notifier`, `start_streaming`
  and `stop_streaming`. The model also covers how `start_streaming` finds the encoder executable and the
  input video, picks an encoding preset and turns it for portrait mode,
  and builds the ffmpeg argument list. It covers the retry loop, with at
  most `MAX_RETRIES + 1` launches per pass, and the outer loop that
  restarts when `looping` is set;
- the configuration dispatch of `bot.py`. This is the `admin_only` guard
  and the callback-button handler, which edits the persisted streaming
  document. It includes the completeness check made before a stream is
  started, and the text handler that answers the stream-key and
  scheduled-stop prompts.

The controller is modelled twice:

- `Controller.StreamController` is a class whose methods update its
  fields step by step, with loops where the source has them;
- module `Session` computes the same thing as values.

Every method of the class is proved to end in the state the `Session`
functions compute. The properties of the retry and outer loops are proved
about those functions in `SessionProperties`.

The encoder process is not run. It is replaced by a *script*: one
`Outcome` per launch attempt, read in order. The possible outcomes are:

- exit with a code;
- the spawn raises;
- `stop_streaming` completes while the monitor polls;
- the process exits and a stop follows before the next loop guard.

If the script runs out while the controller would launch again, the run
stops there. This is the *horizon*, and nothing after it is observed.

The host is given as values rather than queried:

- the configuration document, or the error `load_config` raised;
- the answer of `shutil.which`;
- the two directory walks;
- an existence test for files.

The bot's handlers take the streaming document and the per-user prompt
flags. They return the document they would save, the new flags and a
`Request` to the controller: start, stop, or schedule a stop.

The model follows the code as written, including where its behaviour is
easy to misread:

- after an early failure, such as a missing video or an unreadable
  configuration, `streaming_active` stays `True`;
- a missing `rtmp_url` or `stream_key` raises `KeyError`, uncaught, so no
  message is sent;
- a non-text `mode` makes `mode.upper()` raise on the first attempt,
  before anything is launched. This is `Ending.ModeNotText`;
- a stop that completes while the monitor polls makes the monitor read
  the exit code of the cleared handle. The resulting error is reported
  as an "Error FFmpeg" message after the stop announcement;
- the Facebook address ends in `/`, and the stream URL adds another
  slash between it and the key.

## Model

| member | source | states |
|---|---|---|
| Presets.PresetFor | livestream.py:113 | a known quality string selects its table entry (480p, 720p60, 1080p60); anything else, including a non-string value, selects the 720p60 entry; the result is always a table entry |
| Presets.MissingQualityIs720 | livestream.py:90 | a document without `resolution` gets the 720p60 preset |
| Presets.SplitOn | livestream.py:72 | Python's `split` on a one-character separator; its properties are stated by `Presets.SplitGlue`, `Presets.SplitParts`, `Presets.SplitNoSeparator` and `Presets.SplitAtFirst` |
| Presets.SplitGlue | livestream.py:72 | `split('x')` loses nothing: the parts joined by the separator give the input back |
| Presets.SplitParts | livestream.py:72 | no part contains the separator, and there is one part more than separators |
| Presets.SplitNoSeparator | livestream.py:72 | a string without the separator splits into itself |
| Presets.SplitAtFirst | livestream.py:72 | the first separator ends the first part |
| Presets.AdjustResolution | livestream.py:70-74 | any mode other than exactly "portrait" leaves the resolution unchanged; an unpackable split is the error case `None` |
| Presets.PortraitSwaps | livestream.py:70-74 | portrait turns `WxH` into `HxW` |
| Presets.PortraitNeedsOneX | livestream.py:72-73 | portrait succeeds exactly when the resolution holds exactly one `x` |
| Presets.PortraitInvolution | livestream.py:70-74 | turning a turned resolution gives the original back |
| Presets.Portrait480 | livestream.py:54 | portrait 480p is 480x854 |
| Presets.Portrait720 | livestream.py:59 | portrait 720p60 is 720x1280 |
| Presets.Portrait1080 | livestream.py:64 | portrait 1080p60 is 1080x1920 |
| Presets.PresetAdjustable | livestream.py:113-114 | the orientation transform never fails on a resolution taken from the table, whatever the mode |
| Command.Arguments | livestream.py:120-130 | the ffmpeg argument list, word by word as in the source; its properties are stated by `Command.ArgumentsShape`, `Command.ParseArgumentsInverts` and `Command.ArgumentsDetermined` |
| Command.Url | livestream.py:89 | the URL is the RTMP address, one slash, then the key, with nothing normalised |
| Command.ArgumentsShape | livestream.py:120-130 | 27 arguments; `-stream_loop` is followed by "-1" exactly when looping and by "0" otherwise; `-i` by the input, `-s` by the size; the list ends with `-f flv` and the URL |
| Command.ParseArgumentsInverts | livestream.py:120-130 | every setting can be read back from the argument list |
| Command.ArgumentsDetermined | livestream.py:120-130 | a list that parses is exactly the list built from what it parses to, so the list carries the settings and nothing else |
| Text.Lower | livestream.py:48 | `lower()`, character by character, on ASCII letters; its property is stated by `Text.LowerKeepsSuffix` |
| Text.Strip | bot.py:254 | argument-less `strip()` over Python's whitespace set; its properties are stated by `Text.StripShape`, `Text.StripEnds` and `Text.StripIdempotent` |
| Text.FieldAfter | bot.py:121 | `data.split(sep)[1]` for data starting with `sep`; its properties are stated by `Text.FieldAfterShape` and `Text.FieldAfterPrefixed` |
| Text.LowerKeepsSuffix | livestream.py:48 | a suffix test survives lower-casing |
| Text.StripShape | bot.py:254 | `strip()` removes exactly a run of whitespace on each side |
| Text.StripEnds | bot.py:254 | the stripped text neither starts nor ends with whitespace |
| Text.StripIdempotent | bot.py:254 | stripping twice strips nothing more |
| Text.FindFrom | bot.py:121 | the result is the first occurrence of the separator at or after the start position, or none exists |
| Text.FieldAfterShape | bot.py:121 | `data.split(sep)[1]` is a prefix of what follows the leading separator and never contains the separator |
| Text.FieldAfterPrefixed | bot.py:136 | `(sep + f).split(sep)[1] == f` when `f` does not contain the separator |
| Text.Join | livestream.py:35 | `os.path.join` on POSIX: an absolute name wins; otherwise the result starts with the directory and ends with the name |
| Text.StartsWith | bot.py:120 | `str.startswith` with one prefix: the prefix is the first characters of the text |
| Text.EndsWith | bot.py:112 | `str.endswith` with one suffix: the suffix is the last characters of the text |
| Text.EndsWithAny | livestream.py:48 | `str.endswith` on a tuple: the text ends with at least one of the suffixes |
| Document.Truthy | livestream.py:121 | Python truthiness of a stored value, as in `"-1" if looping else "0"`: the empty string and `False` are false |
| Document.Present | bot.py:171-179 | `not s.get(key)` is false: the key is stored with a truthy value |
| Document.Format | livestream.py:89 | `str()` of a stored value inside the URL's f-string: a string as is, a boolean as `True` or `False` |
| Locator.IsVideoName | livestream.py:45-48 | the fallback video test: the lower-cased name ends in one of the six supported extensions; used by `Locator.FindFirstVideo` |
| Locator.IsFfmpegName | livestream.py:34 | the local executable test: the lower-cased name is `ffmpeg` or `ffmpeg.exe`; used by `Locator.FindFfmpeg` |
| Locator.FirstInDir | livestream.py:47-49 | the inner loop over one directory's names (the same loop as livestream.py:33-37): the first accepted name joined to the directory; characterised by `Locator.FirstInDirSpec` |
| Locator.FirstInWalk | livestream.py:46-50 | the first accepted path of the walk, in visiting order; characterised by `Locator.FirstInWalkSpec` and computed in place by `Locator.SearchWalk` |
| Locator.FfmpegLookup | livestream.py:26-42 | the path lookup's answer when non-empty, else the first `ffmpeg` file of the walk; computed by `Locator.FindFfmpeg` |
| Locator.FirstInDirSpec | livestream.py:47-49 | the scan of one directory finds nothing exactly when no name is accepted, and otherwise the first accepted name, joined to the directory |
| Locator.FirstInWalkSpec | livestream.py:46-50 | the walk search finds nothing exactly when no name in the walk is accepted, and otherwise the first accepted name in visiting order |
| Locator.SearchWalk | livestream.py:32-37 | the nested walk loop with early return computes the first accepted path |
| Locator.FindFirstVideo | livestream.py:44-50 | `find_first_video` returns the first name whose lower-cased form ends in a supported extension, or nothing |
| Locator.FindFfmpeg | livestream.py:25-42 | a non-empty `which` answer is returned as is; otherwise the first file named `ffmpeg` or `ffmpeg.exe` in any letter case; `None` stands for the error raised; a found path is never empty |
| Session.StoppedEffect | livestream.py:177-200 | after a stop nothing streams and no handle is held; a held handle's lock file is gone and the stop is announced once; without a handle only the flag drops |
| Session.Say | livestream.py:164-165 | a message is handed over only when a notifier is registered, as every `if send_status_message:` guard (livestream.py:85-86, 102-103, 109-110, 143-144, 164-165, 174-175, 199-200) does; stated by `SessionProperties.SayCounts` |
| Session.Stopped | livestream.py:177-200 | `stop_streaming` as a value; its effect is stated by `Session.StoppedEffect`, `SessionProperties.StopTwice` and `SessionProperties.StopAnnouncesOnce`, and `Controller.StreamController.StopStreaming` is proved equal to it |
| Session.Spawned | livestream.py:133-144 | a successful spawn: handle held, lock written, first attempt of a pass announced; stated by `SessionProperties.SpawnAnnounces` |
| Session.Attempt | livestream.py:132-166 | one attempt for each of the four outcomes; stated by `SessionProperties.AttemptAnnounces`, `SessionProperties.AttemptCountsRetry` and `SessionProperties.CleanEndsCountNoRetry`; `Controller.StreamController.LaunchOnce` is proved equal to it |
| Session.Pass | livestream.py:118-166 | a pass reads forward only; it stops reading at the horizon only when the script is used up; an active pass under the retry bound that does not hit the horizon reads at least one outcome |
| Session.Loop | livestream.py:116-169 | the outer loop reads forward only |
| Session.Finish | livestream.py:171-175 | the clean-up after the outer loop; `Controller.StreamController.Wrap` is proved equal to it |
| Session.Run | livestream.py:116-175 | the outer loop then the clean-up unless the horizon was reached; stated by `SessionProperties.ExhaustionWithoutLooping`, `SessionProperties.CleanExitWithoutLooping`, `SessionProperties.LaunchErrorWithoutLooping`, `SessionProperties.EndsAfterFailedExits`, `SessionProperties.AnnouncedOnceWithoutLooping`, `SessionProperties.LoopingNeverReportsExhaustion` and `RunEndsAtStop` lemmas; `Controller.StreamController.AttemptLoop` is proved equal to it |
| Session.InvocationFor | livestream.py:89-130 | the invocation built from a loaded document; stated by `SessionProperties.InvocationFromDocument` |
| Session.InputFor | livestream.py:91-104 | the configured video, else the first video of the folder |
| Session.Prepare | livestream.py:80-114 | the checks before the loops, in source order; stated by `SessionProperties.EarlyFailure`, `SessionProperties.FailureMessagesMarked` and `SessionProperties.ReadyCommand`; `Controller.StreamController.Setup` is proved equal to it |
| Session.StartSpec | livestream.py:76-175 | `start_streaming` as a whole; `Controller.StreamController.StartStreaming` is proved equal to it |
| Controller.StreamController.constructor | livestream.py:7-12 | import-time state: not streaming, no handle, no lock, no notifier |
| Controller.StreamController.SetNotifier | livestream.py:14-17 | registers the notifier and recipient and changes nothing else |
| Controller.StreamController.Notify | livestream.py:164-165 | a message is handed over exactly when a notifier is registered |
| Controller.StreamController.StopStreaming | livestream.py:177-200 | the flag drops and the handle is cleared; with a handle held, the lock is removed and the stop announced; without one, nothing else changes |
| Controller.StreamController.StartStreaming | livestream.py:76-175 | the state and ending are those `Session.StartSpec` computes: the flag raised, the checks in order, then the loops and the clean-up |
| Controller.StreamController.Setup | livestream.py:80-114 | the checks before the loops, in source order, give exactly `Session.Prepare`: the failing check with its message, or the argument list and the looping flag |
| Controller.StreamController.LaunchOnce | livestream.py:132-166 | one attempt ends in the state `Session.Attempt` computes: a spawn holds the handle and writes the lock, the first attempt of a pass is announced, a nonzero exit counts a retry, an error breaks the loop |
| Controller.StreamController.RetryPass | livestream.py:118-166 | the retry loop ends in the state, position and horizon `Session.Pass` computes |
| Controller.StreamController.AttemptLoop | livestream.py:116-175 | the outer loop and the clean-up end in the state and horizon `Session.Run` computes |
| Controller.StreamController.Wrap | livestream.py:171-175 | the lock file is removed; an exhausted last pass is reported |
| SessionProperties.StartedIsDistinct | livestream.py:144 | the start announcement differs from the error, stop and exhaustion messages |
| SessionProperties.StopTwice | livestream.py:177-200 | a second stop changes nothing and announces nothing |
| SessionProperties.StopAnnouncesOnce | livestream.py:180-200 | a stop announces exactly once when a handle was held and a notifier registered, and never otherwise |
| SessionProperties.SayCounts | livestream.py:164-165 | handing over a message adds one to its count and nothing to any other |
| SessionProperties.StopAnnouncesNoStart | livestream.py:199-200 | a stop adds no start announcement |
| SessionProperties.SpawnAnnounces | livestream.py:143-144 | a spawn announces the start exactly when the retry counter is 0 and a notifier is registered |
| SessionProperties.AttemptAnnounces | livestream.py:132-166 | an attempt announces the start exactly when it spawns the encoder at retry 0 with a notifier registered |
| SessionProperties.AttemptCountsRetry | livestream.py:153-166 | no attempt lowers the counter; an attempt that does not break the retry loop counts exactly one retry |
| SessionProperties.CleanEndsCountNoRetry | livestream.py:158-166 | a clean exit or a launch error breaks the retry loop without counting a retry or touching the flag |
| SessionProperties.PassAnnouncesAtMostOnce | livestream.py:118-166 | a pass announces the start at most once, and only if it began at retry 0 |
| SessionProperties.PassExhausts | livestream.py:118-157 | with nonzero exits throughout, a pass launches until the counter passes MAX_RETRIES, ending with the counter at 4, the handle and lock held, and one start announcement if it began at 0 |
| SessionProperties.ExhaustionWithoutLooping | livestream.py:116-175 | looping off, every exit nonzero: exactly 4 launches, counter 4, lock removed, the start and the exhaustion each announced once |
| SessionProperties.CleanExitWithoutLooping | livestream.py:116-175 | looping off, a clean first exit: one launch, no retry, only the start announced |
| SessionProperties.PassSkipsFailedExits | livestream.py:153-157 | nonzero exits within the retry bound only count retries: the pass continues from the next outcome with the handle and lock held and the start announced once if it began at 0 |
| SessionProperties.EndsAfterFailedExits | livestream.py:153-175 | looping off, after k <= 3 nonzero exits a clean exit or launch error ends the run at once: nothing more read, counter k, lock removed, only the start announcement and the launch error sent, never the exhaustion report |
| SessionProperties.LaunchErrorWithoutLooping | livestream.py:116-175 | looping off, a first launch error: nothing launched, no retry, only the error reported |
| SessionProperties.AnnouncedOnceWithoutLooping | livestream.py:116-175 | looping off, the start is announced at most once per run |
| SessionProperties.PassWithoutStopKeepsActive | livestream.py:118-166 | without a stop the session stays active through a pass |
| SessionProperties.LoopingRunsUntilStopped | livestream.py:116-169 | looping on and no stop: the outer loop restarts after every pass, however it ended, and is still active at the horizon |
| SessionProperties.LoopingNeverReportsExhaustion | livestream.py:116-175 | looping on and no stop: the clean-up and the exhaustion report are never reached |
| SessionProperties.PassEndsAtStop | livestream.py:118-166 | a pass reads nothing past the first stop; reading it leaves the session inactive without a handle |
| SessionProperties.LoopEndsAtStop | livestream.py:116-169 | the outer loop reads nothing past the first stop, whether looping or not |
| SessionProperties.RunEndsAtStop | livestream.py:116-175 | once the stop is read the run is over: nothing more launched; inactive, no handle, no lock file |
| SessionProperties.InactiveLaunchesNothing | livestream.py:116-118 | an inactive session launches nothing and reads no outcome |
| SessionProperties.PassLaunchesAtMostOncePerOutcome | livestream.py:132-137 | each outcome read spawns the encoder at most once |
| SessionProperties.PassLaunchBound | livestream.py:118 | a pass from a reset counter launches at most MAX_RETRIES + 1 = 4 times |
| SessionProperties.EarlyFailure | livestream.py:78-111 | a failed check leaves the flag raised, nothing launched, handle, lock and counter untouched; the message list grows by exactly that check's failure message when a notifier is registered; there is no message exactly when the missing key or the non-text mode raised uncaught |
| SessionProperties.FailureMessagesMarked | livestream.py:86-110 | every failure message of the set-up checks starts with the failure mark U+1F6AB |
| SessionProperties.InvocationFromDocument | livestream.py:89-130 | the command carries the truthiness of `looping`, the preset's resolution turned for the mode, its fps, and the `rtmp_url/stream_key` URL |
| SessionProperties.ReadyCommand | livestream.py:80-130 | when every check passes, the configuration loaded, both keys are present, an executable and an input were found, and the command is built from them |
| Bot.IsAdmin | bot.py:32-43 | the `admin_only` test; both handlers are proved to change nothing for a user it rejects |
| Bot.Complete | bot.py:171-182 | every check of `start_live` passes; `Bot.FailingShape` proves the missing list empty exactly then, and `Bot.ButtonHandler` requests a start exactly then |
| Bot.Classify | bot.py:85-246 | the `if`/`elif` chain of `button_handler` in source order; stated by the `Bot.Classify...` lemmas |
| Bot.Label | bot.py:172-180 | the text `start_live` lists for each missing setting; stated by `Bot.LabelsDistinct` and `Bot.FailingShape` |
| Bot.LabelsDistinct | bot.py:172-180 | different settings are listed under different texts |
| Bot.FailingShape | bot.py:170-182 | the missing list names a setting exactly when its check fails, keeps the order Video, RTMP, Stream Key, Resolusi, Mode Live, and is empty exactly when the document is complete |
| Bot.MissingConfig | bot.py:170-180 | the appends build a list naming exactly the failed checks, in check order, empty exactly when the document is complete |
| Bot.ClassifyRtmpButtons | bot.py:95-101 | the YouTube and Facebook buttons reach their branches |
| Bot.ClassifyKeyButton | bot.py:107 | the stream-key button reaches its branch |
| Bot.ClassifyModeButtons | bot.py:149-155 | the portrait and landscape buttons reach their branches |
| Bot.ClassifyLoopingButton | bot.py:161 | the Auto Looping button reaches its branch |
| Bot.ClassifyStartLive | bot.py:169 | the Start Live button reaches the start branch |
| Bot.ClassifyStopLive | bot.py:191 | the Stop Live button reaches the stop branch |
| Bot.ClassifyScheduleStop | bot.py:196 | the schedule button reaches the schedule branch |
| Bot.ClassifyPrefixed | bot.py:120-135 | data starting with `video_` or `res_` reaches the video or resolution branch |
| Bot.ButtonHandler | bot.py:77-246 | non-admins change nothing; by branch: the RTMP address, video path, resolution or mode stored; the key and schedule prompts raised; looping negated; a start requested exactly when the document is complete; a stop requested; every other branch changes nothing |
| Bot.ToggleTwiceRestores | bot.py:161-164 | toggling twice restores a stored boolean |
| Bot.ToggleMissingTurnsOn | bot.py:162 | a missing `looping` reads as false, so the first toggle turns looping on |
| Bot.FacebookUrlDoubleSlash | bot.py:102 | the stream URL for Facebook has the key after `/rtmp//` |
| Bot.IsPickerName | bot.py:112 | the pickers' test, also used at bot.py:201: the name ends, case-sensitively, in `.mp4`, `.mkv` or `.mov`; stated by `Bot.PickerFiles` and `Bot.PickerNamesAreVideos` |
| Bot.PickerFiles | bot.py:112 | the pickers offer exactly the listed names ending, case-sensitively, in .mp4, .mkv or .mov, and no more names than listed |
| Bot.PickerFilesAppend | bot.py:112 | the filter works piecewise over a split listing, so the offered files keep the listing's order |
| Bot.VideoButtons | bot.py:114 | the callback data `video_<name>` of the buttons `choose_video` shows, one per offered file; its properties are stated by `Bot.VideoButtonsReachPicker` and `Bot.VideoButtonSelects` |
| Bot.VideoButtonsReachPicker | bot.py:114-120 | there is one button per offered file, and every button's data starts with `video_` and reaches the video branch of the handler |
| Bot.ExtensionIsVideo | livestream.py:45-48 | a name ending in a supported extension passes the controller's video test |
| Bot.PickerNamesAreVideos | bot.py:112 | every name a picker offers passes the controller's video test |
| Bot.PickerListingFindsVideo | bot.py:112 | when the walk of `videos` starts with the listed directory and a picker offers a file, the controller's video search finds a video in that directory: the first name of the listing that passes the video test, which need not be an offered one |
| Bot.DiscoveryWiderThanPicker | bot.py:112 | the converse fails: an upper-case or `.avi` name is found by the controller but never offered |
| Bot.VideoButtonSelects | bot.py:114-122 | pressing an offered button stores `videos/<name>` when the name contains neither `video_` nor a slash |
| Bot.VideoDataSelects | bot.py:120-122 | the data `video_<f>` stores `videos/<f>` for such a name |
| Bot.VideoButtonCut | bot.py:121 | a name holding `video_` is cut at its second occurrence |
| Bot.ResButtonStores | bot.py:135-137 | `res_<r>` stores `r` whenever `r` does not contain `res_` |
| Bot.MessageHandler | bot.py:249-268 | non-admins and a text-less message change nothing; awaiting a key stores the stripped text and clears the prompt; awaiting a schedule clears the prompt and requests a stop in minutes × 60 seconds, or nothing on a non-number; otherwise nothing changes |
| Bot.StoredKeyIsStripped | bot.py:254 | the stored key is already stripped |

## Left out

- Telegram itself is not modelled: replies, menus, message edits, the alert for non-admins, and whether a notification is delivered. The `admin_only` guard is the `IsAdmin` test in the handlers.
- Reading and writing `streaming.json` and `config.json` is not modelled. A handler takes the loaded document and returns the one it would save.
- Uploads, the `del_` branch's `os.remove`, and `os.listdir` are not modelled; a listing is given as a sequence.
- `subprocess.Popen`, `poll`, stderr reading, signals, `wait`/`kill`, `time.sleep` and `print` are left out. The encoder is the outcome script.
- Threads, `asyncio` tasks and the timing of `schedule_stop` are left out. A scheduled stop is only the `ScheduleStop(seconds)` request.
- Only two interleavings of a concurrent `stop_streaming` with the monitor are modelled. A second concurrent `start_streaming` and a stop during the set-up checks are not.
- `is_streaming` (a process-table scan) and `check_status` are left out: they only read the host.
- `os.walk`, `shutil.which` and `os.path.exists` are given as values rather than queried.
- `int()` parsing in the schedule prompt is given as its result (`parsed`).
- `Text.Lower` maps only the ASCII letters A-Z; Python's full Unicode case mapping is not modelled. (`Text.Strip` uses the whole whitespace set of Python's `str.isspace`.)
- JSON values other than strings and booleans are not modelled, since the bot writes no other kind. A boolean `video_path` is tested by its text.
- An exception while writing `ffmpeg.lock` is not modelled.
- The retry counter is a field of the class rather than a local of `start_streaming`.
