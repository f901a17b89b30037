/**
 * Properties of whole sessions: what each input sends, and what follows for any sequence of
 * inputs — which events go out at most once, the cadence of VIEW beacons, the event index,
 * the buffering totals and the session start time.
 */
module SessionProperties {
  import opened Options
  import opened KavaEvents
  import opened Playback
  import opened Session

  // ---------------------------------------------------------------------------------------
  // What one input sends

  /** The events the listener decides to send for a player event, before the send guard. */
  function PlayerDecided(s: State, event: PlayerEvent, env: Env): seq<KavaEvent> {
    match event
    case StateChanged(_) => []
    case LoadedMetadata =>
      if s.isImpressionSent then [] else if s.isAutoPlay then [IMPRESSION, PLAY_REQUEST] else [IMPRESSION]
    case Play => if s.isImpressionSent then [PLAY_REQUEST] else []
    case Pause => [PAUSE]
    case Playing => if s.isFirstPlay then [PLAY] else if s.isPaused && !s.isEnded then [RESUME] else []
    case Seeking(_) => [SEEK]
    case Replay => [REPLAY]
    case SourceSelected(_) => []
    case Ended =>
      NewlyReached(s, env.player) + if s.playReached100 then [] else [PLAY_REACHED_100_PERCENT]
    case PlaybackInfoUpdated(bitrate) => if s.actualBitrate != bitrate then [FLAVOR_SWITCHED] else []
    case VideoTrackChanged(_) => [SOURCE_SELECTED]
    case AudioTrackChanged(_) => [AUDIO_SELECTED]
    case TextTrackChanged(_) => [CAPTIONS]
    case Error(_) => [ERROR]
    case OtherPlayerEvent => []
  }

  /** The events the plugin decides to send for an input, before the send guard. */
  function Decided(s: State, i: Input): seq<KavaEvent> {
    match i.signal
    case PlayerSignal(event) => PlayerDecided(s, event, i.env)
    case TimerTick =>
      if s.timerRunning && !s.isPaused
      then (if ViewDue(s.viewEventTimeCounter) then [VIEW] else []) + NewlyReached(s, i.env.player)
      else []
    case _ => []
  }

  /** The player events that send at most two events, in two groups. */
  lemma PlayerSendsA(s: State, event: PlayerEvent, env: Env)
    requires event.StateChanged? || event.LoadedMetadata? || event.Play? || event.Pause? || event.Playing?
    ensures var r := OnPlayerEvent(s, event, env);
      && r.sent == s.sent + Out(s, PlayerDecided(s, event, env))
      && r.eventIndex == s.eventIndex + |Out(s, PlayerDecided(s, event, env))|
  {
    if event.StateChanged? {
      HandleStateChangedEffect(s, event.newState, env);
    } else if event.LoadedMetadata? {
      OnLoadedMetadataSends(s, env);
    } else if event.Play? {
      OnPlayEffect(s, env);
    } else if event.Pause? {
      OnPauseEffect(s, env);
    } else {
      OnPlayingEffect(s, env);
    }
  }

  lemma PlayerSendsB(s: State, event: PlayerEvent, env: Env)
    requires event.Seeking? || event.Replay? || event.SourceSelected? || event.Ended?
             || event.PlaybackInfoUpdated?
    ensures var r := OnPlayerEvent(s, event, env);
      && r.sent == s.sent + Out(s, PlayerDecided(s, event, env))
      && r.eventIndex == s.eventIndex + |Out(s, PlayerDecided(s, event, env))|
  {
    if event.Seeking? {
      OnSeekingEffect(s, event.targetPosition, env);
    } else if event.Replay? {
      EmitEffect(s, REPLAY, env);
    } else if event.Ended? {
      OnEndedSends(s, env);
    } else if event.PlaybackInfoUpdated? {
      OnPlaybackInfoUpdatedEffect(s, event.videoBitrate, env);
    }
  }

  lemma PlayerSendsC(s: State, event: PlayerEvent, env: Env)
    requires event.VideoTrackChanged? || event.AudioTrackChanged? || event.TextTrackChanged?
             || event.Error? || event.OtherPlayerEvent?
    ensures var r := OnPlayerEvent(s, event, env);
      && r.sent == s.sent + Out(s, PlayerDecided(s, event, env))
      && r.eventIndex == s.eventIndex + |Out(s, PlayerDecided(s, event, env))|
  {
    if event.VideoTrackChanged? {
      EmitEffect(s.(actualBitrate := event.bitrate), SOURCE_SELECTED, env);
    } else if event.AudioTrackChanged? {
      EmitEffect(s.(currentAudioLanguage := event.audioLanguage), AUDIO_SELECTED, env);
    } else if event.TextTrackChanged? {
      EmitEffect(s.(currentCaptionLanguage := event.textLanguage), CAPTIONS, env);
    } else if event.Error? {
      OnErrorEffect(s, event.errorType, env);
    }
  }

  /** A player event sends what `PlayerDecided` lists, when sending is possible at all. */
  lemma PlayerEventSends(s: State, event: PlayerEvent, env: Env)
    ensures var r := OnPlayerEvent(s, event, env);
      && r.sent == s.sent + Out(s, PlayerDecided(s, event, env))
      && r.eventIndex == s.eventIndex + |Out(s, PlayerDecided(s, event, env))|
  {
    if event.StateChanged? || event.LoadedMetadata? || event.Play? || event.Pause? || event.Playing? {
      PlayerSendsA(s, event, env);
    } else if event.Seeking? || event.Replay? || event.SourceSelected? || event.Ended?
              || event.PlaybackInfoUpdated? {
      PlayerSendsB(s, event, env);
    } else {
      PlayerSendsC(s, event, env);
    }
  }

  /** A new media sends and queues nothing. */
  lemma MediaSends(s: State, media: MediaEntry, env: Env)
    ensures var r := Step(s, Input(UpdateMedia(media), env));
      r.sent == s.sent && r.beacons == s.beacons
  {
    OnUpdateMediaEffect(s, media);
  }

  /** A new configuration sends and queues nothing and keeps the index. */
  lemma ConfigSends(s: State, config: Config, defaultReferrer: string, env: Env)
    ensures var r := Step(s, Input(UpdateConfig(config, defaultReferrer), env));
      r.sent == s.sent && r.beacons == s.beacons && r.eventIndex == s.eventIndex
  {
    OnUpdateConfigEffect(s, config, defaultReferrer);
  }

  /** Pausing, resuming and destroying the plugin, and responses, send and queue nothing and keep the index. */
  lemma LifecycleSends(s: State, i: Input)
    requires i.signal.ApplicationPaused? || i.signal.ApplicationResumed? || i.signal.Destroy?
             || i.signal.Response?
    ensures Step(s, i).sent == s.sent && Step(s, i).beacons == s.beacons && Step(s, i).eventIndex == s.eventIndex
  {
    if i.signal.ApplicationPaused? {
      StopAnalyticsTimerEffect(s.(isPaused := true));
    } else if i.signal.ApplicationResumed? {
      StartAnalyticsTimerEffect(s);
    } else if i.signal.Destroy? {
      StopAnalyticsTimerEffect(s);
    } else {
      OnResponseEffect(s, i.signal.body);
    }
  }

  /** A tick of a running, unpaused timer sends what `Decided` lists; any other tick nothing. */
  lemma TickSends(s: State, env: Env)
    ensures var i := Input(TimerTick, env);
      var r := Step(s, i);
      && r.sent == s.sent + Out(s, Decided(s, i))
      && r.eventIndex == s.eventIndex + |Out(s, Decided(s, i))|
  {
    if s.timerRunning && !s.isPaused {
      OnTimerTickSends(s, env);
    }
  }

  /**
   * Every input sends what `Decided` lists, in that order, or nothing when the partner id is
   * invalid or the media has no entry id; each beacon advances the event index by one, which
   * only a new media resets.
   */
  lemma StepSends(s: State, i: Input)
    ensures var r := Step(s, i);
      && r.sent == s.sent + Out(s, Decided(s, i))
      && (!i.signal.UpdateMedia? ==> r.eventIndex == s.eventIndex + |Out(s, Decided(s, i))|)
  {
    if i.signal.PlayerSignal? {
      PlayerEventSends(s, i.signal.event, i.env);
    } else if i.signal.TimerTick? {
      TickSends(s, i.env);
    } else if i.signal.UpdateMedia? {
      MediaSends(s, i.signal.media, i.env);
    } else if i.signal.UpdateConfig? {
      ConfigSends(s, i.signal.config, i.signal.defaultReferrer, i.env);
    } else {
      LifecycleSends(s, i);
    }
  }

  // ---------------------------------------------------------------------------------------
  // The request queue

  /** The player events keep the queue in step with the log, in three groups. */
  lemma PlayerKeepsA(s: State, event: PlayerEvent, env: Env)
    requires event.StateChanged? || event.LoadedMetadata? || event.Play? || event.Pause? || event.Playing?
    ensures QueueKept(s, OnPlayerEvent(s, event, env))
  {
    if event.StateChanged? {
      HandleStateChangedEffect(s, event.newState, env);
    } else if event.LoadedMetadata? {
      OnLoadedMetadataKeeps(s, env);
    } else if event.Play? {
      EmitKeeps(if s.isFirstPlay then s.(joinTimeStartTimestamp := env.now) else s, PLAY_REQUEST, env);
    } else if event.Pause? {
      EmitKeeps(s.(isPaused := true), PAUSE, env);
    } else {
      EmitKeeps(s.(isFirstPlay := false), PLAY, env);
      EmitKeeps(s, RESUME, env);
    }
  }

  lemma PlayerKeepsB(s: State, event: PlayerEvent, env: Env)
    requires event.Seeking? || event.Replay? || event.SourceSelected? || event.Ended?
             || event.PlaybackInfoUpdated?
    ensures QueueKept(s, OnPlayerEvent(s, event, env))
  {
    if event.Seeking? {
      EmitKeeps(s.(targetSeekPositionInSeconds := WholeSeconds(event.targetPosition)), SEEK, env);
    } else if event.Replay? {
      EmitKeeps(s, REPLAY, env);
    } else if event.Ended? {
      OnEndedKeeps(s, env);
    } else if event.PlaybackInfoUpdated? {
      EmitKeeps(s.(actualBitrate := event.videoBitrate), FLAVOR_SWITCHED, env);
    }
  }

  lemma PlayerKeepsC(s: State, event: PlayerEvent, env: Env)
    requires event.VideoTrackChanged? || event.AudioTrackChanged? || event.TextTrackChanged?
             || event.Error? || event.OtherPlayerEvent?
    ensures QueueKept(s, OnPlayerEvent(s, event, env))
  {
    if event.VideoTrackChanged? {
      EmitKeeps(s.(actualBitrate := event.bitrate), SOURCE_SELECTED, env);
    } else if event.AudioTrackChanged? {
      EmitKeeps(s.(currentAudioLanguage := event.audioLanguage), AUDIO_SELECTED, env);
    } else if event.TextTrackChanged? {
      EmitKeeps(s.(currentCaptionLanguage := event.textLanguage), CAPTIONS, env);
    } else if event.Error? {
      EmitKeeps(s.(errorCode := ErrorCodeOf(event.errorType)), ERROR, env);
    }
  }

  /**
   * Every input keeps the requests already queued, in place, and queues one request per event
   * it sends: exactly the events `Decided` lists, when sending is possible at all.
   */
  lemma StepQueues(s: State, i: Input)
    ensures var r := Step(s, i);
      s.beacons <= r.beacons && |r.beacons| == |s.beacons| + |Out(s, Decided(s, i))|
  {
    StepSends(s, i);
    if i.signal.PlayerSignal? {
      var event := i.signal.event;
      if event.StateChanged? || event.LoadedMetadata? || event.Play? || event.Pause? || event.Playing? {
        PlayerKeepsA(s, event, i.env);
      } else if event.Seeking? || event.Replay? || event.SourceSelected? || event.Ended?
                || event.PlaybackInfoUpdated? {
        PlayerKeepsB(s, event, i.env);
      } else {
        PlayerKeepsC(s, event, i.env);
      }
    } else if i.signal.TimerTick? {
      if s.timerRunning {
        OnTimerTickKeeps(s, i.env);
      }
    } else if i.signal.UpdateMedia? {
      MediaSends(s, i.signal.media, i.env);
    } else if i.signal.UpdateConfig? {
      ConfigSends(s, i.signal.config, i.signal.defaultReferrer, i.env);
    } else {
      LifecycleSends(s, i);
    }
  }

  /** Over any run, no request once queued is rewritten or dropped. */
  lemma {:induction false} RunQueues(s: State, inputs: seq<Input>)
    ensures QueueKept(s, Run(s, inputs))
    decreases |inputs|
  {
    if |inputs| > 0 {
      var t := Step(s, inputs[0]);
      StepQueues(s, inputs[0]);
      StepSends(s, inputs[0]);
      RunQueues(t, inputs[1..]);
      QueueKeptTrans(s, t, Run(t, inputs[1..]));
    }
  }

  /** Handling `a` and then `b` is handling `a + b`. */
  lemma {:induction false} RunAppend(s: State, a: seq<Input>, b: seq<Input>)
    ensures Run(s, a + b) == Run(Run(s, a), b)
    decreases |a|
  {
    if |a| == 0 {
      assert a + b == b;
    } else {
      assert (a + b)[1..] == a[1..] + b;
      RunAppend(Step(s, a[0]), a[1..], b);
    }
  }

  // ---------------------------------------------------------------------------------------
  // The event index

  /** No input of the sequence brings a new media. */
  predicate NoMediaChange(inputs: seq<Input>) {
    forall k :: 0 <= k < |inputs| ==> !inputs[k].signal.UpdateMedia?
  }

  /**
   * Between media changes the event index and the number of beacons sent grow together, so
   * the index a beacon carries counts the beacons of its media.
   */
  lemma {:induction false} RunIndex(s: State, inputs: seq<Input>)
    requires NoMediaChange(inputs)
    ensures Run(s, inputs).eventIndex - |Run(s, inputs).sent| == s.eventIndex - |s.sent|
    decreases |inputs|
  {
    if |inputs| > 0 {
      StepSends(s, inputs[0]);
      RunIndex(Step(s, inputs[0]), inputs[1..]);
    }
  }

  /** After a new media, the next beacon carries index 1, the one after it 2, and so on. */
  lemma MediaIndex(s: State, media: MediaEntry, inputs: seq<Input>)
    requires NoMediaChange(inputs)
    ensures var r := Run(OnUpdateMedia(s, media), inputs);
      r.eventIndex == 1 + |r.sent| - |s.sent|
  {
    OnUpdateMediaEffect(s, media);
    RunIndex(OnUpdateMedia(s, media), inputs);
  }

  // ---------------------------------------------------------------------------------------
  // The flags that make events go out once

  /**
   * The flags guarding the events that go out at most once: the impression, the first play
   * (pending until the first PLAYING of a media) and the four milestones.
   */
  datatype Marks = Marks(impressionSent: bool, firstPlayPending: bool,
                         reached25: bool, reached50: bool, reached75: bool, reached100: bool)

  function MarksOf(s: State): Marks {
    Marks(s.isImpressionSent, s.isFirstPlay, s.playReached25, s.playReached50, s.playReached75,
          s.playReached100)
  }

  /** The quartile milestones brought up to the player's position. */
  function Reach(m: Marks, p: PlayerInfo): Marks {
    m.(reached25 := m.reached25 || Crossed(p, 1), reached50 := m.reached50 || Crossed(p, 2),
       reached75 := m.reached75 || Crossed(p, 3))
  }

  /** How an input moves the flags, stated independently of the handlers. */
  function NextMarks(s: State, i: Input): Marks {
    var m := MarksOf(s);
    match i.signal
    case UpdateMedia(_) => Marks(m.impressionSent, true, false, false, false, false)
    case PlayerSignal(LoadedMetadata) => m.(impressionSent := true)
    case PlayerSignal(Playing) => m.(firstPlayPending := false)
    case PlayerSignal(Ended) => Reach(m, i.env.player).(reached100 := true)
    case TimerTick => if s.timerRunning && !s.isPaused then Reach(m, i.env.player) else m
    case _ => m
  }

  /** The events that leave the flags alone, in three groups. */
  lemma QuietMarksA(s: State, event: PlayerEvent, env: Env)
    requires event.StateChanged? || event.Play? || event.Pause? || event.Seeking?
    ensures MarksOf(OnPlayerEvent(s, event, env)) == MarksOf(s)
  {
    if event.StateChanged? {
      HandleStateChangedEffect(s, event.newState, env);
    } else if event.Play? {
      OnPlayEffect(s, env);
    } else if event.Pause? {
      OnPauseEffect(s, env);
    } else {
      OnSeekingEffect(s, event.targetPosition, env);
    }
  }

  lemma QuietMarksB(s: State, event: PlayerEvent, env: Env)
    requires event.Replay? || event.PlaybackInfoUpdated? || event.VideoTrackChanged? || event.SourceSelected?
    ensures MarksOf(OnPlayerEvent(s, event, env)) == MarksOf(s)
  {
    if event.Replay? {
      EmitEffect(s, REPLAY, env);
    } else if event.PlaybackInfoUpdated? {
      OnPlaybackInfoUpdatedEffect(s, event.videoBitrate, env);
    } else if event.VideoTrackChanged? {
      EmitEffect(s.(actualBitrate := event.bitrate), SOURCE_SELECTED, env);
    }
  }

  lemma QuietMarksC(s: State, event: PlayerEvent, env: Env)
    requires event.AudioTrackChanged? || event.TextTrackChanged? || event.Error? || event.OtherPlayerEvent?
    ensures MarksOf(OnPlayerEvent(s, event, env)) == MarksOf(s)
  {
    if event.AudioTrackChanged? {
      EmitEffect(s.(currentAudioLanguage := event.audioLanguage), AUDIO_SELECTED, env);
    } else if event.TextTrackChanged? {
      EmitEffect(s.(currentCaptionLanguage := event.textLanguage), CAPTIONS, env);
    } else if event.Error? {
      OnErrorEffect(s, event.errorType, env);
    }
  }

  /** The flags after a player event. */
  lemma PlayerMarks(s: State, event: PlayerEvent, env: Env)
    ensures MarksOf(OnPlayerEvent(s, event, env)) == NextMarks(s, Input(PlayerSignal(event), env))
  {
    if event.LoadedMetadata? {
      OnLoadedMetadataEffect(s, env);
    } else if event.Playing? {
      OnPlayingEffect(s, env);
    } else if event.Ended? {
      OnEndedEffect(s, env);
    } else if event.StateChanged? || event.Play? || event.Pause? || event.Seeking? {
      QuietMarksA(s, event, env);
    } else if event.Replay? || event.PlaybackInfoUpdated? || event.VideoTrackChanged? || event.SourceSelected? {
      QuietMarksB(s, event, env);
    } else {
      QuietMarksC(s, event, env);
    }
  }

  /** The host's calls other than a new media, and the responses, leave the flags alone. */
  lemma HostMarks(s: State, i: Input)
    requires i.signal.UpdateConfig? || i.signal.ApplicationPaused? || i.signal.ApplicationResumed?
             || i.signal.Destroy? || i.signal.Response?
    ensures MarksOf(Step(s, i)) == MarksOf(s)
  {
    if i.signal.UpdateConfig? {
      OnUpdateConfigEffect(s, i.signal.config, i.signal.defaultReferrer);
    } else if i.signal.ApplicationPaused? {
      StopAnalyticsTimerEffect(s.(isPaused := true));
    } else if i.signal.ApplicationResumed? {
      StartAnalyticsTimerEffect(s);
    } else if i.signal.Destroy? {
      StopAnalyticsTimerEffect(s);
    } else {
      OnResponseEffect(s, i.signal.body);
    }
  }

  /** A tick of a running, unpaused timer brings the quartile milestones up to date. */
  lemma TickMarks(s: State, env: Env)
    ensures MarksOf(Step(s, Input(TimerTick, env))) == NextMarks(s, Input(TimerTick, env))
  {
    if s.timerRunning && !s.isPaused {
      MaybeSendViewEventEffect(s, env);
      MaybeSendPlayerReachedEventEffect(MaybeSendViewEvent(s, env), env);
    }
  }

  /** A new media clears the milestones and makes the next PLAYING a first play again. */
  lemma MediaMarks(s: State, media: MediaEntry, env: Env)
    ensures MarksOf(Step(s, Input(UpdateMedia(media), env))) == NextMarks(s, Input(UpdateMedia(media), env))
  {
    OnUpdateMediaEffect(s, media);
  }

  /** The flags after any input are those `NextMarks` gives. */
  lemma StepMarks(s: State, i: Input)
    ensures MarksOf(Step(s, i)) == NextMarks(s, i)
  {
    if i.signal.PlayerSignal? {
      PlayerMarks(s, i.signal.event, i.env);
    } else if i.signal.TimerTick? {
      TickMarks(s, i.env);
    } else if i.signal.UpdateMedia? {
      MediaMarks(s, i.signal.media, i.env);
    } else {
      HostMarks(s, i);
    }
  }

  // ---------------------------------------------------------------------------------------
  // Events that go out at most once

  /** The impression, the PLAY and the four milestones. */
  predicate OnceEvent(e: KavaEvent) {
    e.IMPRESSION? || e.PLAY? || e.PLAY_REACHED_25_PERCENT? || e.PLAY_REACHED_50_PERCENT?
    || e.PLAY_REACHED_75_PERCENT? || e.PLAY_REACHED_100_PERCENT?
  }

  /** The flag of `e` says it has had its turn. */
  predicate Spent(m: Marks, e: KavaEvent) {
    match e
    case IMPRESSION => m.impressionSent
    case PLAY => !m.firstPlayPending
    case PLAY_REACHED_25_PERCENT => m.reached25
    case PLAY_REACHED_50_PERCENT => m.reached50
    case PLAY_REACHED_75_PERCENT => m.reached75
    case PLAY_REACHED_100_PERCENT => m.reached100
    case _ => false
  }

  /** How often `e` occurs among the milestones newly reached. */
  lemma ReachedCount(s: State, p: PlayerInfo, e: KavaEvent)
    ensures multiset(NewlyReached(s, p))[e]
         == (if e == PLAY_REACHED_25_PERCENT && !s.playReached25 && Crossed(p, 1) then 1 else 0)
          + (if e == PLAY_REACHED_50_PERCENT && !s.playReached50 && Crossed(p, 2) then 1 else 0)
          + (if e == PLAY_REACHED_75_PERCENT && !s.playReached75 && Crossed(p, 3) then 1 else 0)
  {
    var a := NewlyReachedAt(s.playReached25, p, 1, PLAY_REACHED_25_PERCENT);
    var b := NewlyReachedAt(s.playReached50, p, 2, PLAY_REACHED_50_PERCENT);
    var c := NewlyReachedAt(s.playReached75, p, 3, PLAY_REACHED_75_PERCENT);
    assert NewlyReached(s, p) == a + b + c;
    assert multiset(a + b + c)[e] == multiset(a)[e] + multiset(b)[e] + multiset(c)[e];
  }

  /** How often `e` is among the events ENDED decides on. */
  lemma EndedCount(s: State, env: Env, e: KavaEvent)
    ensures multiset(PlayerDecided(s, Ended, env))[e]
         == multiset(NewlyReached(s, env.player))[e]
          + if e == PLAY_REACHED_100_PERCENT && !s.playReached100 then 1 else 0
  {
    var last := if s.playReached100 then [] else [PLAY_REACHED_100_PERCENT];
    assert PlayerDecided(s, Ended, env) == NewlyReached(s, env.player) + last;
    assert multiset(NewlyReached(s, env.player) + last)[e]
        == multiset(NewlyReached(s, env.player))[e] + multiset(last)[e];
  }

  /** The ENDED event sends each milestone at most once, only while its flag is clear. */
  lemma EndedOnce(s: State, env: Env, e: KavaEvent)
    requires OnceEvent(e)
    ensures var d := PlayerDecided(s, Ended, env);
      && multiset(d)[e] <= (if Spent(MarksOf(s), e) then 0 else 1)
      && (multiset(d)[e] > 0 ==> Spent(NextMarks(s, Input(PlayerSignal(Ended), env)), e))
  {
    EndedCount(s, env, e);
    ReachedCount(s, env.player, e);
    assert NextMarks(s, Input(PlayerSignal(Ended), env)) == Reach(MarksOf(s), env.player).(reached100 := true);
  }

  /** How often `e` is among the events a tick decides on. */
  lemma TickCount(s: State, env: Env, e: KavaEvent)
    ensures multiset(Decided(s, Input(TimerTick, env)))[e]
         == if s.timerRunning && !s.isPaused
            then multiset(NewlyReached(s, env.player))[e]
                 + (if e == VIEW && ViewDue(s.viewEventTimeCounter) then 1 else 0)
            else 0
  {
    if s.timerRunning && !s.isPaused {
      var view := if ViewDue(s.viewEventTimeCounter) then [VIEW] else [];
      assert Decided(s, Input(TimerTick, env)) == view + NewlyReached(s, env.player);
      assert multiset(view + NewlyReached(s, env.player))[e]
          == multiset(view)[e] + multiset(NewlyReached(s, env.player))[e];
    }
  }

  /** A tick sends each milestone at most once, only while its flag is clear, and no impression or PLAY. */
  lemma TickOnce(s: State, env: Env, e: KavaEvent)
    requires OnceEvent(e)
    ensures var d := Decided(s, Input(TimerTick, env));
      && multiset(d)[e] <= (if Spent(MarksOf(s), e) then 0 else 1)
      && (multiset(d)[e] > 0 ==> Spent(NextMarks(s, Input(TimerTick, env)), e))
  {
    TickCount(s, env, e);
    ReachedCount(s, env.player, e);
    if s.timerRunning && !s.isPaused {
      assert NextMarks(s, Input(TimerTick, env)) == Reach(MarksOf(s), env.player);
    }
  }

  /** The player events other than LOADED_METADATA, PLAYING and ENDED decide on none of them. */
  lemma QuietOnce(s: State, event: PlayerEvent, env: Env, e: KavaEvent)
    requires OnceEvent(e) && !event.LoadedMetadata? && !event.Playing? && !event.Ended?
    ensures multiset(PlayerDecided(s, event, env))[e] == 0
  {
  }

  /** LOADED_METADATA decides on the impression only while it is not sent, and marks it sent. */
  lemma LoadedOnce(s: State, env: Env, e: KavaEvent)
    requires OnceEvent(e)
    ensures var i := Input(PlayerSignal(LoadedMetadata), env);
      && multiset(Decided(s, i))[e] <= (if Spent(MarksOf(s), e) then 0 else 1)
      && (multiset(Decided(s, i))[e] > 0 ==> Spent(NextMarks(s, i), e))
  {
    assert NextMarks(s, Input(PlayerSignal(LoadedMetadata), env)) == MarksOf(s).(impressionSent := true);
  }

  /** PLAYING decides on PLAY only on a first play, and then the first play is over. */
  lemma PlayingOnce(s: State, env: Env, e: KavaEvent)
    requires OnceEvent(e)
    ensures var i := Input(PlayerSignal(Playing), env);
      && multiset(Decided(s, i))[e] <= (if Spent(MarksOf(s), e) then 0 else 1)
      && (multiset(Decided(s, i))[e] > 0 ==> Spent(NextMarks(s, i), e))
  {
    assert NextMarks(s, Input(PlayerSignal(Playing), env)) == MarksOf(s).(firstPlayPending := false);
  }

  /**
   * An input decides on such an event at most once, only while its flag is clear, and sets
   * the flag when it does.
   */
  lemma DecidedOnce(s: State, i: Input, e: KavaEvent)
    requires OnceEvent(e)
    ensures multiset(Decided(s, i))[e] <= if Spent(MarksOf(s), e) then 0 else 1
    ensures multiset(Decided(s, i))[e] > 0 ==> Spent(NextMarks(s, i), e)
  {
    if i.signal == PlayerSignal(Ended) {
      EndedOnce(s, i.env, e);
    } else if i.signal.TimerTick? {
      TickOnce(s, i.env, e);
    } else if i.signal == PlayerSignal(LoadedMetadata) {
      LoadedOnce(s, i.env, e);
    } else if i.signal == PlayerSignal(Playing) {
      PlayingOnce(s, i.env, e);
    } else if i.signal.PlayerSignal? {
      QuietOnce(s, i.signal.event, i.env, e);
    }
  }

  /** Only a new media clears a flag, and it never clears the impression's. */
  lemma MarksPersist(s: State, i: Input, e: KavaEvent)
    requires !i.signal.UpdateMedia? || e == IMPRESSION
    ensures Spent(MarksOf(s), e) ==> Spent(NextMarks(s, i), e)
  {
  }

  /** What is left of the allowance of `e`: one until its flag is set, none after. */
  function Left(s: State, e: KavaEvent): nat {
    if Spent(MarksOf(s), e) then 0 else 1
  }

  /** No input sends such an event without using up its allowance. */
  lemma StepOnce(s: State, i: Input, e: KavaEvent)
    requires OnceEvent(e) && (!i.signal.UpdateMedia? || e == IMPRESSION)
    ensures Count(e, Step(s, i)) + Left(Step(s, i), e) <= Count(e, s) + Left(s, e)
  {
    StepSends(s, i);
    StepMarks(s, i);
    DecidedOnce(s, i, e);
    MarksPersist(s, i, e);
    var d := Out(s, Decided(s, i));
    assert multiset(s.sent + d)[e] == multiset(s.sent)[e] + multiset(d)[e];
  }

  /**
   * Over any run without a new media, the impression, the PLAY and each milestone go out at
   * most once, and not at all once their flag is set; the impression's flag survives new
   * media as well.
   */
  lemma {:induction false} RunOnce(s: State, inputs: seq<Input>, e: KavaEvent)
    requires OnceEvent(e) && (NoMediaChange(inputs) || e == IMPRESSION)
    ensures Count(e, Run(s, inputs)) + Left(Run(s, inputs), e) <= Count(e, s) + Left(s, e)
    decreases |inputs|
  {
    if |inputs| > 0 {
      StepOnce(s, inputs[0], e);
      RunOnce(Step(s, inputs[0]), inputs[1..], e);
    }
  }

  /** A plugin sends at most one impression in its whole life, whatever media it plays. */
  lemma ImpressionOnce(config: Config, defaultReferrer: string, inputs: seq<Input>)
    ensures Count(IMPRESSION, Run(Loaded(config, defaultReferrer), inputs)) <= 1
  {
    LoadedEffect(config, defaultReferrer);
    RunOnce(Loaded(config, defaultReferrer), inputs, IMPRESSION);
  }

  /** From a new media to the next, PLAY and each milestone go out at most once. */
  lemma MediaOnce(s: State, media: MediaEntry, inputs: seq<Input>, e: KavaEvent)
    requires OnceEvent(e) && NoMediaChange(inputs)
    ensures Count(e, Run(OnUpdateMedia(s, media), inputs)) <= Count(e, s) + 1
  {
    OnUpdateMediaEffect(s, media);
    RunOnce(OnUpdateMedia(s, media), inputs, e);
  }

  // ---------------------------------------------------------------------------------------
  // Milestones in order

  /** A milestone flag is only set once the lower ones are. */
  predicate Nested(m: Marks) {
    (m.reached75 ==> m.reached50) && (m.reached50 ==> m.reached25)
  }

  /** How many quartile milestones are marked, when they are nested. */
  function Level(m: Marks): nat {
    if m.reached75 then 3 else if m.reached50 then 2 else if m.reached25 then 1 else 0
  }

  /** How many quartiles the player has crossed. */
  function CrossedLevel(p: PlayerInfo): nat {
    if Crossed(p, 3) then 3 else if Crossed(p, 2) then 2 else if Crossed(p, 1) then 1 else 0
  }

  const Milestones: seq<KavaEvent> :=
    [PLAY_REACHED_25_PERCENT, PLAY_REACHED_50_PERCENT, PLAY_REACHED_75_PERCENT]

  /** Crossing a quartile means having crossed the ones below it. */
  lemma CrossedNested(p: PlayerInfo)
    ensures Crossed(p, 3) ==> Crossed(p, 2)
    ensures Crossed(p, 2) ==> Crossed(p, 1)
  {
    QuartilesNested(p.position, p.duration);
  }

  /** No input breaks the nesting of the milestone flags. */
  lemma NextMarksNested(s: State, i: Input)
    requires Nested(MarksOf(s))
    ensures Nested(NextMarks(s, i))
  {
    CrossedNested(i.env.player);
  }

  /** Every state a run reaches from nested flags has nested flags. */
  lemma {:induction false} RunNested(s: State, inputs: seq<Input>)
    requires Nested(MarksOf(s))
    ensures Nested(MarksOf(Run(s, inputs)))
    decreases |inputs|
  {
    if |inputs| > 0 {
      StepMarks(s, inputs[0]);
      NextMarksNested(s, inputs[0]);
      RunNested(Step(s, inputs[0]), inputs[1..]);
    }
  }

  /**
   * With nested flags, the milestones newly reached are exactly those after the last one
   * marked, up to the quartile the player has crossed, lowest first: none is skipped and
   * none is repeated.
   */
  lemma ReachedInOrder(s: State, p: PlayerInfo)
    requires Nested(MarksOf(s))
    ensures Level(MarksOf(s)) <= CrossedLevel(p) ==>
              NewlyReached(s, p) == Milestones[Level(MarksOf(s))..CrossedLevel(p)]
    ensures CrossedLevel(p) < Level(MarksOf(s)) ==> NewlyReached(s, p) == []
  {
    CrossedNested(p);
  }

  // ---------------------------------------------------------------------------------------
  // PLAYING after ENDED

  /** A PLAYING after ENDED (a replay) sends the first play's PLAY if it is pending, never a RESUME. */
  lemma PlayingAfterEnded(s: State, env: Env, next: Env)
    ensures var t := OnEnded(s, env);
      OnPlaying(t, next).sent == t.sent + Out(s, if s.isFirstPlay then [PLAY] else [])
  {
    OnEndedEffect(s, env);
    OnPlayingEffect(OnEnded(s, env), next);
  }

  // ---------------------------------------------------------------------------------------
  // Bitrate changes

  /** Every input of the sequence reports the same video bitrate `bitrate`. */
  predicate SameBitrate(inputs: seq<Input>, bitrate: int) {
    forall k :: 0 <= k < |inputs| ==> inputs[k].signal == PlayerSignal(PlaybackInfoUpdated(bitrate))
  }

  /**
   * A run of reports of the same bitrate sends at most one FLAVOR_SWITCHED, and none when
   * that bitrate is already the current one.
   */
  lemma {:induction false} FlavorSwitchedOnce(s: State, inputs: seq<Input>, bitrate: int)
    requires SameBitrate(inputs, bitrate)
    ensures Count(FLAVOR_SWITCHED, Run(s, inputs))
         <= Count(FLAVOR_SWITCHED, s) + if s.actualBitrate == bitrate then 0 else 1
    ensures |inputs| > 0 ==> Run(s, inputs).actualBitrate == bitrate
    decreases |inputs|
  {
    if |inputs| > 0 {
      var t := Step(s, inputs[0]);
      OnPlaybackInfoUpdatedEffect(s, bitrate, inputs[0].env);
      var d := Out(s, if s.actualBitrate != bitrate then [FLAVOR_SWITCHED] else []);
      assert multiset(s.sent + d)[FLAVOR_SWITCHED] == multiset(s.sent)[FLAVOR_SWITCHED] + multiset(d)[FLAVOR_SWITCHED];
      FlavorSwitchedOnce(t, inputs[1..], bitrate);
    }
  }

  // ---------------------------------------------------------------------------------------
  // The cadence of VIEW beacons

  /** Every input of the sequence is a tick of the view timer. */
  predicate AllTicks(inputs: seq<Input>) {
    forall k :: 0 <= k < |inputs| ==> inputs[k].signal.TimerTick?
  }

  /** A tick of a running, unpaused timer sends a VIEW exactly when a view period completes. */
  lemma TickView(s: State, env: Env)
    requires s.timerRunning && !s.isPaused
    ensures Count(VIEW, Step(s, Input(TimerTick, env)))
         == Count(VIEW, s) + if CanSend(s) && ViewDue(s.viewEventTimeCounter) then 1 else 0
  {
    TickSends(s, env);
    TickCount(s, env, VIEW);
    ReachedCount(s, env.player, VIEW);
    var d := Out(s, Decided(s, Input(TimerTick, env)));
    assert multiset(s.sent + d)[VIEW] == multiset(s.sent)[VIEW] + multiset(d)[VIEW];
  }

  /** The view counter, in seconds, after one more tick. */
  function NextPhase(j: nat): nat {
    if j == 9 then 0 else j + 1
  }

  /** The VIEW beacons due in `n` ticks from a counter of `j` seconds, and the counter after them. */
  function ViewsDue(j: nat, n: nat): nat
    decreases n
  {
    if n == 0 then 0 else (if j == 9 then 1 else 0) + ViewsDue(NextPhase(j), n - 1)
  }

  function PhaseAfter(j: nat, n: nat): nat
    decreases n
  {
    if n == 0 then j else PhaseAfter(NextPhase(j), n - 1)
  }

  /** Every tenth tick is due: `n` ticks from `j` seconds complete `(j + n) / 10` periods. */
  lemma {:induction false} ViewsDueClosedForm(j: nat, n: nat)
    requires j < 10
    ensures ViewsDue(j, n) == (j + n) / 10 && PhaseAfter(j, n) == (j + n) % 10
    decreases n
  {
    if n > 0 {
      ViewsDueClosedForm(NextPhase(j), n - 1);
    }
  }

  /**
   * While playback runs, the timer's ticks send the VIEW beacons `ViewsDue` counts, and
   * leave the view counter at `PhaseAfter` seconds. Nothing goes out when sending is
   * impossible.
   */
  lemma {:induction false} ViewCadence(s: State, inputs: seq<Input>, j: nat)
    requires AllTicks(inputs) && s.timerRunning && !s.isPaused
    requires j < 10 && s.viewEventTimeCounter == 1000 * j
    ensures Count(VIEW, Run(s, inputs))
         == Count(VIEW, s) + if CanSend(s) then ViewsDue(j, |inputs|) else 0
    ensures Run(s, inputs).viewEventTimeCounter == 1000 * PhaseAfter(j, |inputs|)
    decreases |inputs|
  {
    if |inputs| > 0 {
      var env := inputs[0].env;
      assert inputs[0] == Input(TimerTick, env);
      var t := Step(s, inputs[0]);
      TickView(s, env);
      OnTimerTickEffect(s, env);
      assert t.viewEventTimeCounter == 1000 * NextPhase(j);
      ViewCadence(t, inputs[1..], NextPhase(j));
    }
  }

  /** Ten ticks from the start of a view period send exactly one VIEW and start a new period. */
  lemma TenTicks(s: State, inputs: seq<Input>)
    requires AllTicks(inputs) && |inputs| == 10 && s.timerRunning && !s.isPaused
    requires s.viewEventTimeCounter == 0 && CanSend(s)
    ensures Count(VIEW, Run(s, inputs)) == Count(VIEW, s) + 1
    ensures Run(s, inputs).viewEventTimeCounter == 0
  {
    ViewCadence(s, inputs, 0);
    ViewsDueClosedForm(0, 10);
  }

  // ---------------------------------------------------------------------------------------
  // Fields only a few inputs touch

  /** The session start time, the buffering mark and total, the configuration and the media. */
  datatype Kept = Kept(sessionStartTime: Option<string>, bufferingMark: int, bufferTotal: int,
                       config: Config, media: Option<MediaEntry>)

  function KeptOf(s: State): Kept {
    Kept(s.sessionStartTime, s.lastKnownBufferingTimestamp, s.totalBufferTimePerEntry, s.config, s.media)
  }

  /**
   * How an input moves these fields, stated independently of the handlers: a new media
   * clears the start time and the total; a response fills a missing start time; a BUFFERING
   * after the impression sets the mark; a READY after a mark adds the time since it.
   */
  function NextKept(s: State, i: Input): Kept {
    var k := KeptOf(s);
    var now := i.env.now;
    match i.signal
    case UpdateMedia(media) => k.(sessionStartTime := None, bufferTotal := 0, media := Some(media))
    case UpdateConfig(config, _) => k.(config := config)
    case Response(body) => k.(sessionStartTime := if k.sessionStartTime.Some? then k.sessionStartTime else body)
    case PlayerSignal(StateChanged(Buffering)) => if s.isImpressionSent then k.(bufferingMark := now) else k
    case PlayerSignal(StateChanged(Ready)) =>
      if k.bufferingMark == 0 then k
      else k.(bufferTotal := k.bufferTotal + (now - k.bufferingMark), bufferingMark := now)
    case _ => k
  }

  /** The player events other than a state change leave these fields alone, in three groups. */
  lemma QuietKeptA(s: State, event: PlayerEvent, env: Env)
    requires event.LoadedMetadata? || event.Play? || event.Pause? || event.Playing?
    ensures KeptOf(OnPlayerEvent(s, event, env)) == KeptOf(s)
  {
    if event.LoadedMetadata? {
      OnLoadedMetadataEffect(s, env);
    } else if event.Play? {
      OnPlayEffect(s, env);
    } else if event.Pause? {
      OnPauseEffect(s, env);
    } else {
      OnPlayingEffect(s, env);
    }
  }

  lemma QuietKeptB(s: State, event: PlayerEvent, env: Env)
    requires event.Seeking? || event.Replay? || event.SourceSelected? || event.Ended?
             || event.PlaybackInfoUpdated?
    ensures KeptOf(OnPlayerEvent(s, event, env)) == KeptOf(s)
  {
    if event.Seeking? {
      OnSeekingEffect(s, event.targetPosition, env);
    } else if event.Replay? {
      EmitEffect(s, REPLAY, env);
    } else if event.Ended? {
      OnEndedEffect(s, env);
    } else if event.PlaybackInfoUpdated? {
      OnPlaybackInfoUpdatedEffect(s, event.videoBitrate, env);
    }
  }

  lemma QuietKeptC(s: State, event: PlayerEvent, env: Env)
    requires event.VideoTrackChanged? || event.AudioTrackChanged? || event.TextTrackChanged?
             || event.Error? || event.OtherPlayerEvent?
    ensures KeptOf(OnPlayerEvent(s, event, env)) == KeptOf(s)
  {
    if event.VideoTrackChanged? {
      EmitEffect(s.(actualBitrate := event.bitrate), SOURCE_SELECTED, env);
    } else if event.AudioTrackChanged? {
      EmitEffect(s.(currentAudioLanguage := event.audioLanguage), AUDIO_SELECTED, env);
    } else if event.TextTrackChanged? {
      EmitEffect(s.(currentCaptionLanguage := event.textLanguage), CAPTIONS, env);
    } else if event.Error? {
      OnErrorEffect(s, event.errorType, env);
    }
  }

  /** A player state change moves only the buffering fields. */
  lemma StateChangedKept(s: State, newState: PlayerState, env: Env)
    ensures KeptOf(OnPlayerEvent(s, StateChanged(newState), env))
         == NextKept(s, Input(PlayerSignal(StateChanged(newState)), env))
  {
    HandleStateChangedEffect(s, newState, env);
    if newState == Ready {
      CalculateTotalBufferTimePerViewEventEffect(s, env.now);
    }
  }

  /** The lifecycle calls of the host and the timer's ticks leave these fields alone. */
  lemma LifecycleKept(s: State, i: Input)
    requires i.signal.ApplicationPaused? || i.signal.ApplicationResumed? || i.signal.Destroy?
             || i.signal.TimerTick?
    ensures KeptOf(Step(s, i)) == KeptOf(s)
  {
    if i.signal.ApplicationPaused? {
      StopAnalyticsTimerEffect(s.(isPaused := true));
    } else if i.signal.ApplicationResumed? {
      StartAnalyticsTimerEffect(s);
    } else if i.signal.Destroy? {
      StopAnalyticsTimerEffect(s);
    } else if s.timerRunning {
      OnTimerTickEffect(s, i.env);
    }
  }

  /** A new media clears the start time and the total, and keeps the buffering mark. */
  lemma MediaKept(s: State, media: MediaEntry, env: Env)
    ensures KeptOf(Step(s, Input(UpdateMedia(media), env))) == NextKept(s, Input(UpdateMedia(media), env))
  {
    OnUpdateMediaEffect(s, media);
  }

  lemma ConfigKept(s: State, config: Config, defaultReferrer: string, env: Env)
    ensures var i := Input(UpdateConfig(config, defaultReferrer), env);
      KeptOf(Step(s, i)) == NextKept(s, i)
  {
    OnUpdateConfigEffect(s, config, defaultReferrer);
  }

  lemma ResponseKept(s: State, body: Option<string>, env: Env)
    ensures KeptOf(Step(s, Input(Response(body), env))) == NextKept(s, Input(Response(body), env))
  {
    OnResponseEffect(s, body);
  }

  /** These fields after any input are those `NextKept` gives. */
  lemma StepKept(s: State, i: Input)
    ensures KeptOf(Step(s, i)) == NextKept(s, i)
  {
    if i.signal.PlayerSignal? {
      var event := i.signal.event;
      if event.StateChanged? {
        StateChangedKept(s, event.newState, i.env);
      } else if event.LoadedMetadata? || event.Play? || event.Pause? || event.Playing? {
        QuietKeptA(s, event, i.env);
      } else if event.Seeking? || event.Replay? || event.SourceSelected? || event.Ended?
                || event.PlaybackInfoUpdated? {
        QuietKeptB(s, event, i.env);
      } else {
        QuietKeptC(s, event, i.env);
      }
    } else if i.signal.UpdateMedia? {
      MediaKept(s, i.signal.media, i.env);
    } else if i.signal.UpdateConfig? {
      ConfigKept(s, i.signal.config, i.signal.defaultReferrer, i.env);
    } else if i.signal.Response? {
      ResponseKept(s, i.signal.body, i.env);
    } else {
      LifecycleKept(s, i);
    }
  }

  /** No input of the sequence changes the configuration. */
  predicate NoConfigChange(inputs: seq<Input>) {
    forall k :: 0 <= k < |inputs| ==> !inputs[k].signal.UpdateConfig?
  }

  /** Between media changes, the first session start time received is the one kept. */
  lemma {:induction false} SessionStartKept(s: State, inputs: seq<Input>)
    requires NoMediaChange(inputs) && s.sessionStartTime.Some?
    ensures Run(s, inputs).sessionStartTime == s.sessionStartTime
    decreases |inputs|
  {
    if |inputs| > 0 {
      StepKept(s, inputs[0]);
      SessionStartKept(Step(s, inputs[0]), inputs[1..]);
    }
  }

  /**
   * Without a valid partner id or an entry id, nothing is ever sent until the host brings a
   * new media or configuration.
   */
  lemma {:induction false} SilentWithoutIds(s: State, inputs: seq<Input>)
    requires !CanSend(s) && NoMediaChange(inputs) && NoConfigChange(inputs)
    ensures Run(s, inputs).sent == s.sent
    decreases |inputs|
  {
    if |inputs| > 0 {
      StepSends(s, inputs[0]);
      StepKept(s, inputs[0]);
      SilentWithoutIds(Step(s, inputs[0]), inputs[1..]);
    }
  }

  /** The clock never goes back, and never before `mark`. */
  predicate ClockFrom(mark: int, inputs: seq<Input>) {
    && (forall k :: 0 <= k < |inputs| ==> mark <= inputs[k].env.now)
    && (forall j, k :: 0 <= j < k < |inputs| ==> inputs[j].env.now <= inputs[k].env.now)
  }

  /**
   * While the clock does not go back, the buffering total of a media never decreases: each
   * READY adds the non-negative time since the last BUFFERING mark.
   */
  lemma {:induction false} BufferTotalGrows(s: State, inputs: seq<Input>)
    requires NoMediaChange(inputs) && ClockFrom(s.lastKnownBufferingTimestamp, inputs)
    ensures Run(s, inputs).totalBufferTimePerEntry >= s.totalBufferTimePerEntry
    decreases |inputs|
  {
    if |inputs| > 0 {
      var t := Step(s, inputs[0]);
      StepKept(s, inputs[0]);
      assert t.lastKnownBufferingTimestamp == s.lastKnownBufferingTimestamp
          || t.lastKnownBufferingTimestamp == inputs[0].env.now;
      assert ClockFrom(t.lastKnownBufferingTimestamp, inputs[1..]);
      BufferTotalGrows(t, inputs[1..]);
    }
  }
}
