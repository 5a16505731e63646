/**
 * What the session functions of module Session promise about
 * `start_streaming` and `stop_streaming`: the retry bound, when the
 * start announcement is made, how the outer loop restarts, what a stop
 * ends, and what the early failures leave behind.
 */
module SessionProperties {
  import opened Wrappers
  import opened Document
  import opened Presets
  import opened Command
  import opened Locator
  import opened Session

  /** How often `msg` was handed to the notifier. */
  function Sent(s: SessionState, msg: string): nat {
    multiset(s.notifications)[msg]
  }

  /** The start announcement differs from every other message the loops send. */
  lemma StartedIsDistinct(reason: string)
    ensures StartedMsg != EncoderErrorMsg(reason)
    ensures StartedMsg != StoppedMsg && StartedMsg != ExhaustedMsg
  {
    assert StartedMsg[0] == '\U{2705}';
    assert EncoderErrorMsg(reason)[0] == ExhaustedMsg[0] == ErrorMark[0] == '\U{1F6AB}';
    assert StoppedMsg[0] == '\U{1F6D1}';
  }

  // ---------------------------------------------------------------------
  // stop_streaming
  // ---------------------------------------------------------------------

  /** A second stop changes nothing and announces nothing. */
  lemma StopTwice(s: SessionState, notify: bool)
    ensures Stopped(Stopped(s, notify), notify) == Stopped(s, notify)
    ensures Stopped(Stopped(s, notify), notify).notifications == Stopped(s, notify).notifications
  {
  }

  /** A stop announces at most once, and exactly once when a handle was held and a notifier is registered. */
  lemma StopAnnouncesOnce(s: SessionState, notify: bool)
    ensures Sent(Stopped(s, notify), StoppedMsg) == Sent(s, StoppedMsg) + (if s.hasHandle && notify then 1 else 0)
  {
    StoppedEffect(s, notify);
  }

  // ---------------------------------------------------------------------
  // One attempt
  // ---------------------------------------------------------------------

  /** Handing over one message adds one to its count and nothing to any other. */
  lemma SayCounts(s: SessionState, notify: bool, msg: string, m: string)
    ensures Sent(Say(s, notify, msg), m) == Sent(s, m) + (if notify && msg == m then 1 else 0)
  {
    if notify {
      assert multiset(s.notifications + [msg]) == multiset(s.notifications) + multiset{msg};
    }
  }

  /** A stop adds no start announcement. */
  lemma StopAnnouncesNoStart(s: SessionState, notify: bool)
    ensures Sent(Stopped(s, notify), StartedMsg) == Sent(s, StartedMsg)
  {
    StartedIsDistinct("");
    if s.hasHandle {
      SayCounts(s.(active := false, hasHandle := false, lockPresent := false), notify, StoppedMsg, StartedMsg);
    }
  }

  /** A spawn announces the start exactly when the counter is 0 and a notifier is registered. */
  lemma SpawnAnnounces(s: SessionState, notify: bool)
    ensures Sent(Spawned(s, notify), StartedMsg) == Sent(s, StartedMsg) + (if notify && s.retries == 0 then 1 else 0)
  {
    SayCounts(s.(hasHandle := true, lockPresent := true, launches := s.launches + 1),
              notify && s.retries == 0, StartedMsg, StartedMsg);
  }

  /**
   * An attempt announces the start exactly when it spawns the encoder at
   * retry 0 with a notifier registered.
   */
  lemma AttemptAnnounces(s: SessionState, o: Outcome, notify: bool)
    ensures Sent(Attempt(s, o, notify).s, StartedMsg) ==
      Sent(s, StartedMsg) + (if notify && s.retries == 0 && !o.LaunchError? then 1 else 0)
  {
    var t := Spawned(s, notify);
    SpawnAnnounces(s, notify);
    match o
    case LaunchError(reason) =>
      StartedIsDistinct(reason);
      SayCounts(s, notify, EncoderErrorMsg(reason), StartedMsg);
    case Exit(code) =>
      var u := if code != 0 then t.(retries := t.retries + 1) else t;
      assert Attempt(s, o, notify).s == u;
      assert u.notifications == t.notifications;
    case StopDuringRun =>
      StartedIsDistinct(HandleGoneReason);
      StopAnnouncesNoStart(t, notify);
      SayCounts(Stopped(t, notify), notify, EncoderErrorMsg(HandleGoneReason), StartedMsg);
      assert Attempt(s, o, notify).s == Say(Stopped(t, notify), notify, EncoderErrorMsg(HandleGoneReason));
    case ExitThenStop(code) =>
      var u := if code != 0 then t.(retries := t.retries + 1) else t;
      assert u.notifications == t.notifications;
      StopAnnouncesNoStart(u, notify);
      assert Attempt(s, o, notify).s == Stopped(u, notify);
  }

  /** No attempt lowers the retry counter, and one that does not break the retry loop has counted one more retry. */
  lemma AttemptCountsRetry(s: SessionState, o: Outcome, notify: bool)
    ensures Attempt(s, o, notify).s.retries >= s.retries
    ensures !Attempt(s, o, notify).breaks ==> Attempt(s, o, notify).s.retries == s.retries + 1
  {
    if o.StopDuringRun? {
      StoppedEffect(Spawned(s, notify), notify);
    } else if o.ExitThenStop? {
      var t := Spawned(s, notify);
      StoppedEffect(if o.code != 0 then t.(retries := t.retries + 1) else t, notify);
    }
  }

  /** Neither a clean exit nor a launch error counts a retry; both end the retry loop. */
  lemma CleanEndsCountNoRetry(s: SessionState, o: Outcome, notify: bool)
    requires o == Exit(0) || o.LaunchError?
    ensures Attempt(s, o, notify).breaks
    ensures Attempt(s, o, notify).s.retries == s.retries
    ensures Attempt(s, o, notify).s.active == s.active
  {
  }

  // ---------------------------------------------------------------------
  // The retry loop
  // ---------------------------------------------------------------------

  /** A pass announces the start at most once, and only when it begins at retry 0. */
  lemma {:induction false} PassAnnouncesAtMostOnce(s: SessionState, script: seq<Outcome>, i: nat, notify: bool)
    requires i <= |script|
    ensures Sent(Pass(s, script, i, notify).s, StartedMsg) <= Sent(s, StartedMsg) + (if s.retries == 0 then 1 else 0)
    decreases |script| - i
  {
    if s.retries <= MaxRetries && s.active && i < |script| {
      var st := Attempt(s, script[i], notify);
      AttemptAnnounces(s, script[i], notify);
      AttemptCountsRetry(s, script[i], notify);
      if !st.breaks {
        PassAnnouncesAtMostOnce(st.s, script, i + 1, notify);
      }
    }
  }

  /** The encoder ran and exited with a nonzero code. */
  predicate FailedExit(o: Outcome) {
    o.Exit? && o.code != 0
  }

  /**
   * Nonzero exits all the way: from retry `s.retries` the pass launches
   * until the counter passes MAX_RETRIES, the last state holds the handle
   * and the lock, and the start is announced only if the pass began at 0.
   */
  lemma {:induction false} PassExhausts(s: SessionState, script: seq<Outcome>, i: nat, notify: bool)
    requires s.active && s.retries <= MaxRetries + 1
    requires i + (MaxRetries + 1 - s.retries) <= |script|
    requires forall j :: i <= j < i + (MaxRetries + 1 - s.retries) ==> FailedExit(script[j])
    ensures var n := MaxRetries + 1 - s.retries;
      Pass(s, script, i, notify) ==
        Progress(s.(hasHandle := s.hasHandle || n > 0, lockPresent := s.lockPresent || n > 0,
                    retries := MaxRetries + 1, launches := s.launches + n,
                    notifications := s.notifications + (if notify && s.retries == 0 then [StartedMsg] else [])),
                 i + n, false)
    decreases MaxRetries + 1 - s.retries
  {
    if s.retries <= MaxRetries {
      assert FailedExit(script[i]);
      var st := Attempt(s, script[i], notify);
      assert st.s.retries == s.retries + 1 && !st.breaks;
      PassExhausts(st.s, script, i + 1, notify);
    }
  }

  /**
   * Looping off, every exit nonzero: exactly MAX_RETRIES + 1 = 4 launches,
   * the counter ends at 4, the lock file is gone, and the start and the
   * exhaustion are each announced once.
   */
  lemma ExhaustionWithoutLooping(s: SessionState, script: seq<Outcome>, notify: bool)
    requires s.active
    requires |script| >= MaxRetries + 1
    requires forall j :: 0 <= j < MaxRetries + 1 ==> FailedExit(script[j])
    ensures Run(s, script, notify, false) ==
      Progress(s.(hasHandle := true, lockPresent := false, retries := 4, launches := s.launches + 4,
                  notifications := s.notifications + (if notify then [StartedMsg, ExhaustedMsg] else [])),
               4, false)
  {
    PassExhausts(s.(retries := 0), script, 0, notify);
    if notify {
      assert s.notifications + [StartedMsg] + [ExhaustedMsg] == s.notifications + [StartedMsg, ExhaustedMsg];
    }
  }

  /** Looping off, a clean exit first: one launch, no retry counted, no exhaustion message. */
  lemma CleanExitWithoutLooping(s: SessionState, script: seq<Outcome>, notify: bool)
    requires s.active && |script| >= 1 && script[0] == Exit(0)
    ensures Run(s, script, notify, false) ==
      Progress(s.(hasHandle := true, lockPresent := false, retries := 0, launches := s.launches + 1,
                  notifications := s.notifications + (if notify then [StartedMsg] else [])),
               1, false)
  {
  }

  /** Looping off, a launch error first: nothing launched, no retry counted, only the error reported. */
  lemma LaunchErrorWithoutLooping(s: SessionState, script: seq<Outcome>, notify: bool)
    requires s.active && |script| >= 1 && script[0].LaunchError?
    ensures Run(s, script, notify, false) ==
      Progress(s.(lockPresent := false, retries := 0,
                  notifications := s.notifications + (if notify then [EncoderErrorMsg(script[0].reason)] else [])),
               1, false)
  {
  }

  /** The state after `n` nonzero exits from `s`: the handle and the lock held, `n` more retries and launches. */
  function AfterFailedExits(s: SessionState, n: nat, notify: bool): SessionState {
    if n == 0 then s
    else s.(hasHandle := true, lockPresent := true, retries := s.retries + n, launches := s.launches + n,
            notifications := s.notifications + (if notify && s.retries == 0 then [StartedMsg] else []))
  }

  /**
   * `n` nonzero exits that stay within the retry bound only count retries:
   * the pass goes on from the next outcome in the state `AfterFailedExits`
   * gives.
   */
  lemma {:induction false} PassSkipsFailedExits(s: SessionState, script: seq<Outcome>, i: nat, n: nat, notify: bool)
    requires s.active && s.retries + n <= MaxRetries && i + n <= |script|
    requires forall j :: i <= j < i + n ==> FailedExit(script[j])
    ensures Pass(s, script, i, notify) == Pass(AfterFailedExits(s, n, notify), script, i + n, notify)
    decreases n
  {
    if n > 0 {
      assert FailedExit(script[i]);
      var t := AfterFailedExits(s, 1, notify);
      assert Attempt(s, script[i], notify) == Step(t, false);
      assert Pass(s, script, i, notify) == Pass(t, script, i + 1, notify);
      PassSkipsFailedExits(t, script, i + 1, n - 1, notify);
      assert AfterFailedExits(t, n - 1, notify) == AfterFailedExits(s, n, notify);
    }
  }

  /**
   * Looping off: after `k` <= MAX_RETRIES nonzero exits, a clean exit or a
   * launch error ends the run at once. Nothing after it is read, the
   * counter stays at `k`, the lock file is removed, and the only messages
   * are the start announcement (when something was spawned) and the
   * launch error — never the exhaustion report.
   */
  lemma EndsAfterFailedExits(s: SessionState, script: seq<Outcome>, k: nat, notify: bool)
    requires s.active && k <= MaxRetries && k < |script|
    requires forall j :: 0 <= j < k ==> FailedExit(script[j])
    requires script[k] == Exit(0) || script[k].LaunchError?
    ensures var r := Run(s, script, notify, false);
      r.next == k + 1 && !r.horizon && r.s.active && !r.s.lockPresent && r.s.retries == k
      && r.s.launches == s.launches + k + (if script[k].Exit? then 1 else 0)
      && r.s.notifications ==
           s.notifications
           + (if notify && (k > 0 || script[k].Exit?) then [StartedMsg] else [])
           + (if notify && script[k].LaunchError? then [EncoderErrorMsg(script[k].reason)] else [])
  {
    var s0 := s.(retries := 0);
    PassSkipsFailedExits(s0, script, 0, k, notify);
  }

  /** Looping off, the start is announced at most once in the whole run. */
  lemma AnnouncedOnceWithoutLooping(s: SessionState, script: seq<Outcome>, notify: bool)
    ensures Sent(Run(s, script, notify, false).s, StartedMsg) <= Sent(s, StartedMsg) + 1
  {
    if s.active {
      var p := Pass(s.(retries := 0), script, 0, notify);
      PassAnnouncesAtMostOnce(s.(retries := 0), script, 0, notify);
      StartedIsDistinct("");
      assert Sent(Finish(p.s, notify), StartedMsg) == Sent(p.s, StartedMsg);
    }
  }

  // ---------------------------------------------------------------------
  // Stops
  // ---------------------------------------------------------------------

  /** No outcome in `script[i..j]` is a stop. */
  predicate NoStopBetween(script: seq<Outcome>, i: nat, j: nat)
    requires i <= j <= |script|
  {
    forall k :: i <= k < j ==> !IsStop(script[k])
  }

  /** Without a stop the session stays active through a pass. */
  lemma {:induction false} PassWithoutStopKeepsActive(s: SessionState, script: seq<Outcome>, i: nat, notify: bool)
    requires i <= |script| && NoStopBetween(script, i, |script|)
    ensures Pass(s, script, i, notify).s.active == s.active
    decreases |script| - i
  {
    if s.retries <= MaxRetries && s.active && i < |script| {
      var st := Attempt(s, script[i], notify);
      if !st.breaks {
        PassWithoutStopKeepsActive(st.s, script, i + 1, notify);
      }
    }
  }

  /**
   * Looping on and no stop: the outer loop restarts after every pass,
   * whether it ended exhausted, cleanly or by a launch error, so it is still
   * running, still active, when the script runs out.
   */
  lemma {:induction false} LoopingRunsUntilStopped(s: SessionState, script: seq<Outcome>, i: nat, notify: bool)
    requires s.active && i <= |script| && NoStopBetween(script, i, |script|)
    ensures Loop(s, script, i, notify, true).horizon
    ensures Loop(s, script, i, notify, true).s.active
    decreases |script| - i
  {
    var p := Pass(s.(retries := 0), script, i, notify);
    PassWithoutStopKeepsActive(s.(retries := 0), script, i, notify);
    if !p.horizon {
      LoopingRunsUntilStopped(p.s, script, p.next, notify);
    }
  }

  /** Looping on and no stop: the run never reaches the clean-up, so it never reports exhaustion. */
  lemma LoopingNeverReportsExhaustion(s: SessionState, script: seq<Outcome>, notify: bool)
    requires s.active && NoStopBetween(script, 0, |script|)
    ensures Run(s, script, notify, true).horizon
    ensures Run(s, script, notify, true).s.active
  {
    LoopingRunsUntilStopped(s, script, 0, notify);
  }

  /** A pass reads no outcome past the first stop, and reading it leaves the session stopped. */
  lemma {:induction false} PassEndsAtStop(s: SessionState, script: seq<Outcome>, i: nat, j: nat, notify: bool)
    requires i <= j < |script| && IsStop(script[j])
    ensures Pass(s, script, i, notify).next <= j + 1
    ensures Pass(s, script, i, notify).next == j + 1 ==>
      !Pass(s, script, i, notify).horizon && !Pass(s, script, i, notify).s.active && !Pass(s, script, i, notify).s.hasHandle
    decreases |script| - i
  {
    if s.retries <= MaxRetries && s.active && i < |script| {
      var st := Attempt(s, script[i], notify);
      if i == j {
        if script[i].StopDuringRun? {
          StoppedEffect(Spawned(s, notify), notify);
        } else {
          var t := Spawned(s, notify);
          StoppedEffect(if script[i].code != 0 then t.(retries := t.retries + 1) else t, notify);
        }
      } else if !st.breaks {
        PassEndsAtStop(st.s, script, i + 1, j, notify);
      }
    }
  }

  /** The outer loop reads no outcome past the first stop either, whether looping or not. */
  lemma {:induction false} LoopEndsAtStop(s: SessionState, script: seq<Outcome>, i: nat, j: nat, notify: bool, looping: bool)
    requires i <= j < |script| && IsStop(script[j])
    ensures Loop(s, script, i, notify, looping).next <= j + 1
    ensures Loop(s, script, i, notify, looping).next == j + 1 ==>
      !Loop(s, script, i, notify, looping).horizon
      && !Loop(s, script, i, notify, looping).s.active && !Loop(s, script, i, notify, looping).s.hasHandle
    decreases |script| - i
  {
    if s.active {
      var p := Pass(s.(retries := 0), script, i, notify);
      PassEndsAtStop(s.(retries := 0), script, i, j, notify);
      if !(p.horizon || !looping || !p.s.active) {
        LoopEndsAtStop(p.s, script, p.next, j, notify, looping);
      }
    }
  }

  /**
   * Once the stop is read, the run is over: nothing after it is launched,
   * and the session ends inactive, without a handle and without the lock file.
   */
  lemma RunEndsAtStop(s: SessionState, script: seq<Outcome>, j: nat, notify: bool, looping: bool)
    requires j < |script| && IsStop(script[j])
    ensures Run(s, script, notify, looping).next <= j + 1
    ensures Run(s, script, notify, looping).next == j + 1 ==>
      var t := Run(s, script, notify, looping).s;
      !t.active && !t.hasHandle && !t.lockPresent
  {
    LoopEndsAtStop(s, script, 0, j, notify, looping);
  }

  /** An inactive session launches nothing and reads no outcome: the loop guards come first. */
  lemma InactiveLaunchesNothing(s: SessionState, script: seq<Outcome>, i: nat, notify: bool, looping: bool)
    requires !s.active && i <= |script|
    ensures Pass(s, script, i, notify) == Progress(s, i, false)
    ensures Loop(s, script, i, notify, looping) == Progress(s, i, false)
  {
  }

  /** Each outcome read launches the encoder at most once. */
  lemma {:induction false} PassLaunchesAtMostOncePerOutcome(s: SessionState, script: seq<Outcome>, i: nat, notify: bool)
    requires i <= |script|
    ensures Pass(s, script, i, notify).s.launches <= s.launches + (Pass(s, script, i, notify).next - i)
    decreases |script| - i
  {
    if s.retries <= MaxRetries && s.active && i < |script| {
      var st := Attempt(s, script[i], notify);
      if script[i].StopDuringRun? {
        StoppedEffect(Spawned(s, notify), notify);
      } else if script[i].ExitThenStop? {
        var t := Spawned(s, notify);
        StoppedEffect(if script[i].code != 0 then t.(retries := t.retries + 1) else t, notify);
      }
      assert st.s.launches <= s.launches + 1;
      if !st.breaks {
        PassLaunchesAtMostOncePerOutcome(st.s, script, i + 1, notify);
      }
    }
  }

  /** A pass launches at most MAX_RETRIES + 1 = 4 times from a reset counter. */
  lemma {:induction false} PassLaunchBound(s: SessionState, script: seq<Outcome>, i: nat, notify: bool)
    requires i <= |script| && s.retries <= MaxRetries + 1
    ensures Pass(s, script, i, notify).s.launches <= s.launches + (MaxRetries + 1 - s.retries)
    decreases |script| - i
  {
    if s.retries <= MaxRetries && s.active && i < |script| {
      var st := Attempt(s, script[i], notify);
      if script[i].StopDuringRun? {
        StoppedEffect(Spawned(s, notify), notify);
      } else if script[i].ExitThenStop? {
        var t := Spawned(s, notify);
        StoppedEffect(if script[i].code != 0 then t.(retries := t.retries + 1) else t, notify);
      }
      AttemptCountsRetry(s, script[i], notify);
      if !st.breaks {
        PassLaunchBound(st.s, script, i + 1, notify);
      }
    }
  }

  // ---------------------------------------------------------------------
  // The set-up part of start_streaming
  // ---------------------------------------------------------------------

  /**
   * A failed check ends `start_streaming` with the flag left raised,
   * nothing launched, the handle, the lock and the counter untouched, and
   * the failure message of that check handed over when a notifier is
   * registered — no message at all when a required key was missing or
   * `mode` was not text, since those errors escape uncaught.
   */
  lemma EarlyFailure(s: SessionState, notify: bool, host: Host, script: seq<Outcome>)
    requires Prepare(host).Failed?
    ensures var (t, ending) := StartSpec(s, notify, host, script);
      var message := Prepare(host).message;
      t.active && t.hasHandle == s.hasHandle && t.lockPresent == s.lockPresent
      && t.retries == s.retries && t.launches == s.launches
      && ending == Prepare(host).ending
      && t.notifications == s.notifications + (if notify && message.Some? then [message.value] else [])
      && (message.None? <==> ending == KeyMissing || ending == ModeNotText)
  {
    match host.config
    case LoadFailed(_) =>
    case Loaded(cfg) =>
  }

  /** Every failure message of the set-up checks starts with the failure mark. */
  lemma FailureMessagesMarked(host: Host)
    requires Prepare(host).Failed? && Prepare(host).message.Some?
    ensures Prepare(host).message.value[0] == ErrorMark[0] == '\U{1F6AB}'
  {
    var m := Prepare(host).message.value;
    match host.config
    case LoadFailed(reason) =>
      assert m == ErrorMark + ("Gagal memulai live: " + reason);
    case Loaded(cfg) =>
      if FfmpegLookup(host.which, host.appWalk).None? {
        assert m == ErrorMark + ("Gagal memulai live: " + FfmpegMissingReason);
      } else if InputFor(cfg, host.videosWalk).None? {
        assert m == NoVideoMsg;
      } else {
        assert m == ErrorMark + ("[ERROR] File video tidak ditemukan: " + InputFor(cfg, host.videosWalk).value);
      }
  }

  /**
   * The invocation built from the document: `looping` is the truthiness
   * of the stored value, the size the preset's resolution turned for the
   * mode, and the URL `rtmp_url/stream_key`.
   */
  lemma InvocationFromDocument(cfg: Doc, exe: string, input: string)
    requires "rtmp_url" in cfg && "stream_key" in cfg
    ensures var inv := InvocationFor(cfg, exe, input);
      var quality := Get(cfg, "resolution", Str(DefaultQuality));
      var mode := Format(Get(cfg, "mode", Str("landscape")));
      inv.executable == exe && inv.input == input
      && (inv.looping <==> Truthy(Get(cfg, "looping", Bool(false))))
      && Some(inv.size) == AdjustResolution(PresetFor(quality).resolution, mode)
      && inv.fps == PresetFor(quality).fps
      && inv.url == Url(Format(cfg["rtmp_url"]), Format(cfg["stream_key"]))
  {
    PresetAdjustable(Get(cfg, "resolution", Str(DefaultQuality)), Format(Get(cfg, "mode", Str("landscape"))));
  }

  /** When every check passes, the command is the one built from the document, the executable found and the input chosen. */
  lemma ReadyCommand(host: Host)
    requires Prepare(host).Ready?
    ensures host.config.Loaded? && "rtmp_url" in host.config.doc && "stream_key" in host.config.doc
    ensures FfmpegLookup(host.which, host.appWalk).Some? && InputFor(host.config.doc, host.videosWalk).Some?
    ensures var inv := InvocationFor(host.config.doc, FfmpegLookup(host.which, host.appWalk).value,
                                     InputFor(host.config.doc, host.videosWalk).value);
      Prepare(host) == Ready(Arguments(inv), inv.looping)
  {
  }
}
