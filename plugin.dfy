/**
 * The plugin object itself: its fields, the listener's cases, the timer task, the host
 * callbacks, `sendAnalyticsEvent` and `gatherParams`, each updating the fields in place as the
 * plugin does. Every method is proved to take the field `state` exactly as the corresponding
 * transition of module `Session` does, and to queue one request per event it logs.
 */
module Kava {
  import opened Options
  import opened KavaEvents
  import opened Playback
  import opened LinkedMaps
  import opened ParamMaps
  import opened Session
  import opened BeaconContents

  /** Each queued request reports, as its event type, the event logged at the same position. */
  ghost predicate Logged(queued: seq<Params>, sent: seq<KavaEvent>) {
    && |queued| == |sent|
    && forall i :: 0 <= i < |queued| ==> Get(queued[i], EventType) == Some(Decimal(Code(sent[i])))
  }

  /** Queueing a beacon that reports its event keeps the queue and the log in step. */
  lemma LoggedAppend(queued: seq<Params>, sent: seq<KavaEvent>, params: Params, e: KavaEvent)
    requires Logged(queued, sent) && Get(params, EventType) == Some(Decimal(Code(e)))
    ensures Logged(queued + [params], sent + [e])
  {
    var q, l := queued + [params], sent + [e];
    forall i | 0 <= i < |q| ensures Get(q[i], EventType) == Some(Decimal(Code(l[i]))) {
      if i < |queued| {
        assert q[i] == queued[i] && l[i] == sent[i];
      }
    }
  }

  /** Queueing the beacon of an event that is logged with it keeps the two in step. */
  lemma LoggedSend(queued: seq<Params>, sent: seq<KavaEvent>, s: State, e: KavaEvent, env: Env)
    requires Logged(queued, sent) && HasEntryId(s)
    ensures Logged(queued + [BeaconParams(s, e, env)], sent + [e])
  {
    BeaconEventFields(s, e, env);
    LoggedAppend(queued, sent, BeaconParams(s, e, env), e);
  }

  class KavaAnalyticsPlugin {
    /**
     * The plugin's fields, from `playReached25` to `currentCaptionLanguage`, with the timer
     * (`viewEventTimer != null`), the configuration, the media entry and the log of the events
     * handed to the request queue. Each statement of the plugin that assigns a field assigns
     * that field of `state`.
     */
    var state: State
    /** The parameters of the requests handed to the request queue, oldest first. */
    var queued: seq<Params>

    /**
     * The queue holds exactly the requests of the transitions so far, and each reports, as
     * its event type, the event logged with it.
     */
    ghost predicate Valid()
      reads this
    {
      queued == state.beacons && Logged(queued, state.sent)
    }

    /** `onLoad`: the fields' initial values, then `onUpdateConfig`. */
    constructor (config: Config, defaultReferrer: string)
      ensures Valid()
      ensures state == Loaded(config, defaultReferrer)
      ensures queued == []
    {
      state := State(false, false, false, false, false, false, false, true, true,
                     0, NoErrorCode, 0, NoBitrate, 0, 0, 0, 0, 0, "",
                     None, None, None, None, false, config, None, [], []);
      queued := [];
      new;
      OnUpdateConfig(config, defaultReferrer);
    }

    // -------------------------------------------------------------------------------------
    // Host callbacks

    /** `onUpdateMedia`. */
    method OnUpdateMedia(media: MediaEntry)
      requires Valid()
      modifies this
      ensures Valid() && queued == old(queued)
      ensures state == Session.OnUpdateMedia(old(state), media)
    {
      var s := state;
      s := s.(media := Some(media));
      s := s.(sessionStartTime := None);
      s := s.(eventIndex := 1);
      state := s;
      ResetFlags();
      ResetPlayerReachedFlags();
    }

    /** `onUpdateConfig`; the default referrer is built by the host and passed in. */
    method OnUpdateConfig(config: Config, defaultReferrer: string)
      requires Valid()
      modifies this
      ensures Valid() && queued == old(queued)
      ensures state == Session.OnUpdateConfig(old(state), config, defaultReferrer)
    {
      var s := state.(config := config);
      match config.referrerAsBase64 {
        case Some(r) => s := s.(referrer := r);
        case None => s := s.(referrer := defaultReferrer);
      }
      state := s;
    }

    /** `onApplicationPaused`. */
    method OnApplicationPaused()
      requires Valid()
      modifies this
      ensures Valid() && queued == old(queued)
      ensures state == Session.OnApplicationPaused(old(state))
    {
      state := state.(isPaused := true);
      StopAnalyticsTimer();
    }

    /** `onApplicationResumed`. */
    method OnApplicationResumed()
      requires Valid()
      modifies this
      ensures Valid() && queued == old(queued)
      ensures state == Session.StartAnalyticsTimer(old(state))
    {
      StartAnalyticsTimer();
    }

    /** `onDestroy`. */
    method OnDestroy()
      requires Valid()
      modifies this
      ensures Valid() && queued == old(queued)
      ensures state == Session.StopAnalyticsTimer(old(state))
    {
      StopAnalyticsTimer();
    }

    /** The completion callback of a queued request, with the response body. */
    method OnResponse(body: Option<string>)
      requires Valid()
      modifies this
      ensures Valid() && queued == old(queued)
      ensures state == Session.OnResponse(old(state), body)
    {
      if state.sessionStartTime.None? && body.Some? {
        state := state.(sessionStartTime := body);
      }
    }

    /** `resetFlags`. */
    method ResetFlags()
      requires Valid()
      modifies this
      ensures Valid() && queued == old(queued)
      ensures state == Session.ResetFlags(old(state))
    {
      var s := state;
      s := s.(isPaused := true);
      s := s.(isEnded := false);
      s := s.(isFirstPlay := true);
      s := s.(errorCode := NoErrorCode);
      s := s.(actualBitrate := NoBitrate);
      s := s.(totalBufferTimePerEntry := 0);
      s := s.(totalBufferTimePerViewEvent := 0);
      state := s;
    }

    /** `resetPlayerReachedFlags`. */
    method ResetPlayerReachedFlags()
      requires Valid()
      modifies this
      ensures Valid() && queued == old(queued)
      ensures state == Session.ResetPlayerReachedFlags(old(state))
    {
      var s := state;
      s := s.(playReached25 := false, playReached50 := false, playReached75 := false, playReached100 := false);
      state := s;
    }

    // -------------------------------------------------------------------------------------
    // Sending

    /**
     * `sendAnalyticsEvent`: without a valid partner id or an entry id nothing happens;
     * otherwise the beacon's parameters are gathered, the request is queued and the event
     * index moves on.
     */
    method SendAnalyticsEvent(event: KavaEvent, env: Env)
      requires Valid()
      modifies this
      ensures Valid()
      ensures state == Emit(old(state), event, env)
      ensures queued == old(queued) +
        if CanSend(old(state)) then [BeaconParams(old(state), event, env)] else []
    {
      if !state.config.partnerIdValid {
        EmitEffect(state, event, env);
        return;
      }
      if state.media.None? || state.media.value.id.None? {
        EmitEffect(state, event, env);
        return;
      }
      EmitSends(state, event, env);
      QueueBeacon(event, env);
    }

    /**
     * The rest of `sendAnalyticsEvent` once both checks have passed: the beacon is gathered
     * and queued, and the event index moves on.
     */
    method QueueBeacon(event: KavaEvent, env: Env)
      requires Valid() && CanSend(state)
      modifies this
      ensures Valid()
      ensures state == old(state).(errorCode := if event == ERROR then NoErrorCode else old(state).errorCode,
                                   sent := old(state).sent + [event],
                                   beacons := old(state).beacons + [BeaconParams(old(state), event, env)],
                                   eventIndex := old(state).eventIndex + 1)
      ensures queued == old(queued) + [BeaconParams(old(state), event, env)]
    {
      var params := GatherParams(event, env);
      queued := queued + [params];
      var s := state;
      s := s.(sent := s.sent + [event], beacons := s.beacons + [params], eventIndex := s.eventIndex + 1);
      state := s;
      LoggedSend(old(queued), old(state).sent, old(state), event, env);
    }

    /**
     * `gatherParams`: the mandatory parameters and the session start time once known, then
     * the parameters of the event's branch, each put in turn into a new `LinkedHashMap`, then
     * `addOptionalParams`. An ERROR beacon consumes the stored error code.
     */
    method GatherParams(event: KavaEvent, env: Env) returns (params: Params)
      requires HasEntryId(state)
      modifies this
      ensures state == old(state).(errorCode := if event == ERROR then NoErrorCode else old(state.errorCode))
      ensures queued == old(queued)
      ensures params == BeaconParams(old(state), event, env)
    {
      params := PutMandatoryParams(event, env);
      params := PutEventParams(params, event, env);
      params := AddOptionalParams(params);
      BeaconBlocks(old(state), event, env);
    }

    /** The puts of `gatherParams` before its switch. */
    method PutMandatoryParams(event: KavaEvent, env: Env) returns (params: Params)
      requires HasEntryId(state)
      ensures params == MandatoryParams(state, event, env)
    {
      var s := state;
      var sessionId := env.player.sessionId.GetOr("");
      params := EmptyParams;
      params := Put(params, Service, Text("analytics"));
      params := Put(params, Action, Text("trackEvent"));
      params := Put(params, EventType, Decimal(Code(event)));
      params := Put(params, PartnerId, Decimal(s.config.partnerId));
      params := Put(params, EntryId, Text(s.media.value.id.value));
      params := Put(params, SessionId, Text(sessionId));
      params := Put(params, EventIndex, Decimal(s.eventIndex));
      assert params == IdentityParams(s, event, env);
      params := Put(params, Referrer, Text(s.referrer));
      params := Put(params, DeliveryType, DeliveryValue(s.deliveryType));
      var playbackType := GetPlaybackType(s.media.value.mediaType, event == ERROR, Some(env.player),
                                          s.config.dvrThreshold);
      params := Put(params, PlaybackTypeKey, Text(PlaybackTypeName(playbackType)));
      params := Put(params, ClientVer, ClientTag);
      params := Put(params, ClientTagKey, ClientTag);
      params := Put(params, Position, Seconds(env.player.position));
      if s.sessionStartTime.Some? {
        params := Put(params, SessionStartTime, Text(s.sessionStartTime.value));
      }
    }

    /** The `switch (event)` of `gatherParams`. An ERROR beacon consumes the stored error code. */
    method PutEventParams(params: Params, event: KavaEvent, env: Env) returns (r: Params)
      modifies this
      ensures state == old(state).(errorCode := if event == ERROR then NoErrorCode else old(state.errorCode))
      ensures queued == old(queued)
      ensures r == EventParams(params, old(state), event, env)
    {
      var s := state;
      r := params;
      match event {
        case VIEW | PLAY | RESUME =>
          r := Put(r, BufferTime, Seconds(s.totalBufferTimePerViewEvent));
          r := Put(r, BufferTimeSum, Seconds(s.totalBufferTimePerEntry));
          r := Put(r, ActualBitrate, Decimal(s.actualBitrate));
          if event == PLAY {
            r := Put(r, JoinTime, Seconds(env.now - s.joinTimeStartTimestamp));
          }
        case SEEK =>
          r := Put(r, TargetPosition, FloatOf(s.targetSeekPositionInSeconds));
        case SOURCE_SELECTED | FLAVOR_SWITCHED =>
          r := Put(r, ActualBitrate, Decimal(s.actualBitrate));
        case CAPTIONS =>
          r := Put(r, Caption, OptText(s.currentCaptionLanguage));
        case AUDIO_SELECTED =>
          r := Put(r, Language, OptText(s.currentAudioLanguage));
        case ERROR =>
          if s.errorCode != NoErrorCode {
            r := Put(r, ErrorCode, Decimal(s.errorCode));
            s := s.(errorCode := NoErrorCode);
          }
        case _ =>
      }
      state := s;
    }

    /** `addOptionalParams`: each optional configuration value that is present, in turn. */
    method AddOptionalParams(params: Params) returns (r: Params)
      ensures r == OptionalParams(params, state.config)
    {
      var c := state.config;
      r := params;
      if c.playbackContext.Some? {
        r := Put(r, PlaybackContext, Text(c.playbackContext.value));
      }
      if c.customVar1.Some? {
        r := Put(r, CustomVar1, Text(c.customVar1.value));
      }
      if c.customVar2.Some? {
        r := Put(r, CustomVar2, Text(c.customVar2.value));
      }
      if c.customVar3.Some? {
        r := Put(r, CustomVar3, Text(c.customVar3.value));
      }
      if c.ks.Some? {
        r := Put(r, Ks, Text(c.ks.value));
      }
      if c.uiConfId.Some? {
        r := Put(r, UiConfId, Decimal(c.uiConfId.value));
      }
    }

    // -------------------------------------------------------------------------------------
    // Timer

    /** `startAnalyticsTimer`: a running timer is cancelled and the view counter restarts. */
    method StartAnalyticsTimer()
      requires Valid()
      modifies this
      ensures Valid() && queued == old(queued)
      ensures state == Session.StartAnalyticsTimer(old(state))
    {
      var s := state;
      if s.timerRunning {
        s := s.(viewEventTimeCounter := 0);
        s := s.(timerRunning := false);
      }
      s := s.(timerRunning := true);
      state := s;
    }

    /** `stopAnalyticsTimer`. */
    method StopAnalyticsTimer()
      requires Valid()
      modifies this
      ensures Valid() && queued == old(queued)
      ensures state == Session.StopAnalyticsTimer(old(state))
    {
      if !state.timerRunning {
        return;
      }
      state := state.(timerRunning := false);
    }

    /** The body of the timer task, run once a second while the timer is scheduled. */
    method Tick(env: Env)
      requires Valid() && state.timerRunning
      modifies this
      ensures Valid()
      ensures state == OnTimerTick(old(state), env)
    {
      if !state.isPaused {
        MaybeSendViewEvent(env);
        MaybeSentPlayerReachedEvent(env);
      }
    }

    /** `maybeSendViewEvent`. */
    method MaybeSendViewEvent(env: Env)
      requires Valid()
      modifies this
      ensures Valid()
      ensures state == Session.MaybeSendViewEvent(old(state), env)
    {
      state := state.(viewEventTimeCounter := state.viewEventTimeCounter + OneSecondInMs);
      if state.viewEventTimeCounter >= TenSecondsInMs {
        SendAnalyticsEvent(VIEW, env);
        ResetViewPeriod();
      }
    }

    /** The two resets after a VIEW beacon in `maybeSendViewEvent`. */
    method ResetViewPeriod()
      requires Valid()
      modifies this
      ensures Valid() && queued == old(queued)
      ensures state == old(state).(viewEventTimeCounter := 0, totalBufferTimePerViewEvent := 0)
    {
      var s := state;
      s := s.(viewEventTimeCounter := 0);
      s := s.(totalBufferTimePerViewEvent := 0);
      state := s;
    }

    /**
     * `maybeSentPlayerReachedEvent`: nothing for live media or before the first quartile;
     * otherwise its three milestone blocks in turn.
     */
    method MaybeSentPlayerReachedEvent(env: Env)
      requires Valid()
      modifies this
      ensures Valid()
      ensures state == MaybeSendPlayerReachedEvent(old(state), env)
    {
      var p := env.player;
      if p.isLive {
        return;
      }
      if ProgressBelow(p.position, p.duration, 1) {
        return;
      }
      ReachQuarterBlock(env);
      ReachHalfBlock(env);
      ReachThreeQuartersBlock(env);
    }

    /** The 25% block of `maybeSentPlayerReachedEvent`. */
    method ReachQuarterBlock(env: Env)
      requires Valid()
      modifies this
      ensures Valid()
      ensures state == ReachQuarter(old(state), env)
    {
      if !state.playReached25 {
        state := state.(playReached25 := true);
        SendAnalyticsEvent(PLAY_REACHED_25_PERCENT, env);
      }
    }

    /** The 50% block of `maybeSentPlayerReachedEvent`. */
    method ReachHalfBlock(env: Env)
      requires Valid()
      modifies this
      ensures Valid()
      ensures state == ReachHalf(old(state), env)
    {
      var p := env.player;
      if !state.playReached50 && ProgressAtLeast(p.position, p.duration, 2) {
        state := state.(playReached50 := true);
        SendAnalyticsEvent(PLAY_REACHED_50_PERCENT, env);
      }
    }

    /** The 75% block of `maybeSentPlayerReachedEvent`. */
    method ReachThreeQuartersBlock(env: Env)
      requires Valid()
      modifies this
      ensures Valid()
      ensures state == ReachThreeQuarters(old(state), env)
    {
      var p := env.player;
      if !state.playReached75 && ProgressAtLeast(p.position, p.duration, 3) {
        state := state.(playReached75 := true);
        SendAnalyticsEvent(PLAY_REACHED_75_PERCENT, env);
      }
    }

    // -------------------------------------------------------------------------------------
    // The player-event listener

    /** The listener: one case per player event. */
    method OnEvent(event: PlayerEvent, env: Env)
      requires Valid()
      modifies this
      ensures Valid()
      ensures state == OnPlayerEvent(old(state), event, env)
    {
      match event
      case StateChanged(newState) => HandleStateChanged(newState, env);
      case LoadedMetadata => OnLoadedMetadata(env);
      case Play => OnPlay(env);
      case Pause => OnPause(env);
      case Playing => OnPlaying(env);
      case Seeking(target) => OnSeeking(target, env);
      case Replay => OnReplay(env);
      case SourceSelected(format) => UpdateDeliveryType(format);
      case Ended => OnEnded(env);
      case PlaybackInfoUpdated(bitrate) => OnPlaybackInfoUpdated(bitrate, env);
      case VideoTrackChanged(bitrate) => OnVideoTrackChanged(bitrate, env);
      case AudioTrackChanged(language) => OnAudioTrackChanged(language, env);
      case TextTrackChanged(language) => OnTextTrackChanged(language, env);
      case Error(t) => OnError(t, env);
      case OtherPlayerEvent =>
    }

    /** `LOADED_METADATA`. */
    method OnLoadedMetadata(env: Env)
      requires Valid()
      modifies this
      ensures Valid()
      ensures state == Session.OnLoadedMetadata(old(state), env)
    {
      if !state.isImpressionSent {
        StartAnalyticsTimer();
        SendAnalyticsEvent(IMPRESSION, env);
        if state.isAutoPlay {
          SendAnalyticsEvent(PLAY_REQUEST, env);
          state := state.(isAutoPlay := false);
        }
        state := state.(isImpressionSent := true);
      }
    }

    /** `PLAY`. */
    method OnPlay(env: Env)
      requires Valid()
      modifies this
      ensures Valid()
      ensures state == Session.OnPlay(old(state), env)
    {
      if state.isFirstPlay {
        state := state.(joinTimeStartTimestamp := env.now);
      }
      if state.isImpressionSent {
        SendAnalyticsEvent(PLAY_REQUEST, env);
      } else {
        state := state.(isAutoPlay := true);
      }
    }

    /** `PAUSE`. */
    method OnPause(env: Env)
      requires Valid()
      modifies this
      ensures Valid()
      ensures state == Session.OnPause(old(state), env)
    {
      state := state.(isPaused := true);
      SendAnalyticsEvent(PAUSE, env);
    }

    /** `PLAYING`. */
    method OnPlaying(env: Env)
      requires Valid()
      modifies this
      ensures Valid()
      ensures state == Session.OnPlaying(old(state), env)
    {
      if state.isFirstPlay {
        state := state.(isFirstPlay := false);
        SendAnalyticsEvent(PLAY, env);
      } else {
        if state.isPaused && !state.isEnded {
          SendAnalyticsEvent(RESUME, env);
        }
      }
      var s := state;
      s := s.(isEnded := false);
      s := s.(isPaused := false);
      state := s;
    }

    /** `SEEKING`. */
    method OnSeeking(targetPosition: int, env: Env)
      requires Valid()
      modifies this
      ensures Valid()
      ensures state == Session.OnSeeking(old(state), targetPosition, env)
    {
      state := state.(targetSeekPositionInSeconds := WholeSeconds(targetPosition));
      SendAnalyticsEvent(SEEK, env);
    }

    /** `REPLAY`. */
    method OnReplay(env: Env)
      requires Valid()
      modifies this
      ensures Valid()
      ensures state == Session.OnReplay(old(state), env)
    {
      SendAnalyticsEvent(REPLAY, env);
    }

    /** `updateDeliveryType`, the whole of `SOURCE_SELECTED`. */
    method UpdateDeliveryType(format: MediaFormat)
      requires Valid()
      modifies this
      ensures Valid() && queued == old(queued)
      ensures state == Session.UpdateDeliveryType(old(state), format)
    {
      if format == Dash {
        state := state.(deliveryType := Some(MpegDash));
      } else if format == Hls {
        state := state.(deliveryType := Some(AppleHttp));
      } else {
        state := state.(deliveryType := Some(Url));
      }
    }

    /** `ENDED`. */
    method OnEnded(env: Env)
      requires Valid()
      modifies this
      ensures Valid()
      ensures state == Session.OnEnded(old(state), env)
    {
      MaybeSentPlayerReachedEvent(env);
      ReachEndBlock(env);
      var s := state;
      s := s.(isEnded := true);
      s := s.(isPaused := true);
      state := s;
    }

    /** The 100% block of `ENDED`. */
    method ReachEndBlock(env: Env)
      requires Valid()
      modifies this
      ensures Valid()
      ensures state == ReachEnd(old(state), env)
    {
      if !state.playReached100 {
        state := state.(playReached100 := true);
        SendAnalyticsEvent(PLAY_REACHED_100_PERCENT, env);
      }
    }

    /** `PLAYBACK_INFO_UPDATED`. */
    method OnPlaybackInfoUpdated(videoBitrate: int, env: Env)
      requires Valid()
      modifies this
      ensures Valid()
      ensures state == Session.OnPlaybackInfoUpdated(old(state), videoBitrate, env)
    {
      if state.actualBitrate != videoBitrate {
        state := state.(actualBitrate := videoBitrate);
        SendAnalyticsEvent(FLAVOR_SWITCHED, env);
      }
    }

    /** `VIDEO_TRACK_CHANGED`. */
    method OnVideoTrackChanged(bitrate: int, env: Env)
      requires Valid()
      modifies this
      ensures Valid()
      ensures state == Session.OnVideoTrackChanged(old(state), bitrate, env)
    {
      state := state.(actualBitrate := bitrate);
      SendAnalyticsEvent(SOURCE_SELECTED, env);
    }

    /** `AUDIO_TRACK_CHANGED`. */
    method OnAudioTrackChanged(language: Option<string>, env: Env)
      requires Valid()
      modifies this
      ensures Valid()
      ensures state == Session.OnAudioTrackChanged(old(state), language, env)
    {
      state := state.(currentAudioLanguage := language);
      SendAnalyticsEvent(AUDIO_SELECTED, env);
    }

    /** `TEXT_TRACK_CHANGED`. */
    method OnTextTrackChanged(language: Option<string>, env: Env)
      requires Valid()
      modifies this
      ensures Valid()
      ensures state == Session.OnTextTrackChanged(old(state), language, env)
    {
      state := state.(currentCaptionLanguage := language);
      SendAnalyticsEvent(CAPTIONS, env);
    }

    /** `ERROR`: the code of a player or ad error, -1 for any other, then the beacon. */
    method OnError(t: ErrorType, env: Env)
      requires Valid()
      modifies this
      ensures Valid()
      ensures state == Session.OnError(old(state), t, env)
    {
      match t {
        case PlayerError(code) => state := state.(errorCode := code);
        case AdError(code) => state := state.(errorCode := code);
        case OtherError => state := state.(errorCode := NoErrorCode);
      }
      SendAnalyticsEvent(ERROR, env);
    }

    /** `handleStateChanged`. */
    method HandleStateChanged(newState: PlayerState, env: Env)
      requires Valid()
      modifies this
      ensures Valid() && queued == old(queued)
      ensures state == Session.HandleStateChanged(old(state), newState, env)
    {
      match newState
      case Buffering =>
        if state.isImpressionSent {
          state := state.(lastKnownBufferingTimestamp := env.now);
        }
      case Ready => CalculateTotalBufferTimePerViewEvent(env.now);
      case OtherState =>
    }

    /** `calculateTotalBufferTimePerViewEvent`, at time `now`. */
    method CalculateTotalBufferTimePerViewEvent(now: int)
      requires Valid()
      modifies this
      ensures Valid() && queued == old(queued)
      ensures state == Session.CalculateTotalBufferTimePerViewEvent(old(state), now)
    {
      var s := state;
      if s.lastKnownBufferingTimestamp == 0 {
        return;
      }
      var bufferTime := now - s.lastKnownBufferingTimestamp;
      s := s.(totalBufferTimePerViewEvent := s.totalBufferTimePerViewEvent + bufferTime);
      s := s.(totalBufferTimePerEntry := s.totalBufferTimePerEntry + bufferTime);
      s := s.(lastKnownBufferingTimestamp := now);
      state := s;
    }

    /** Any input: a host call, a player event, a timer tick or a response. */
    method Handle(input: Input)
      requires Valid()
      modifies this
      ensures Valid()
      ensures state == Step(old(state), input)
    {
      match input.signal
      case UpdateMedia(media) => OnUpdateMedia(media);
      case UpdateConfig(config, defaultReferrer) => OnUpdateConfig(config, defaultReferrer);
      case PlayerSignal(event) => OnEvent(event, input.env);
      case TimerTick =>
        if state.timerRunning {
          Tick(input.env);
        }
      case ApplicationPaused => OnApplicationPaused();
      case ApplicationResumed => OnApplicationResumed();
      case Destroy => OnDestroy();
      case Response(body) => OnResponse(body);
    }
  }
}
