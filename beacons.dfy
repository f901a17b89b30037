/**
 * What the beacons of `gatherParams` carry. The map is built in three blocks (the mandatory
 * puts, the `switch (event)`, `addOptionalParams`); each block puts only its own keys, so a
 * key's value is settled by the block that puts it.
 */
module BeaconContents {
  import opened Options
  import opened KavaEvents
  import opened Playback
  import opened LinkedMaps
  import opened ParamMaps
  import opened Session

  /** `addOptionalParams` leaves every other key alone. */
  lemma OptionalKeeps(m: Params, c: Config, k: ParamKey)
    requires !OptionalKey(k)
    ensures Get(OptionalParams(m, c), k) == Get(m, k)
  {
  }

  /** The `switch (event)` leaves every key but its own alone. */
  lemma EventKeeps(m: Params, s: State, e: KavaEvent, env: Env, k: ParamKey)
    requires !EventKey(k)
    ensures Get(EventParams(m, s, e, env), k) == Get(m, k)
  {
  }

  /** A key put by the mandatory block keeps its value in the finished beacon. */
  lemma BeaconFromMandatory(s: State, e: KavaEvent, env: Env, k: ParamKey)
    requires HasEntryId(s) && !EventKey(k) && !OptionalKey(k)
    ensures Get(BeaconParams(s, e, env), k) == Get(MandatoryParams(s, e, env), k)
  {
    var m := MandatoryParams(s, e, env);
    BeaconBlocks(s, e, env);
    OptionalKeeps(EventParams(m, s, e, env), s.config, k);
    EventKeeps(m, s, e, env, k);
  }

  /** The context puts leave every other key alone. */
  lemma ContextKeeps(m: Params, s: State, e: KavaEvent, env: Env, k: ParamKey)
    requires HasEntryId(s) && !ContextKey(k)
    ensures Get(ContextParams(m, s, e, env), k) == Get(m, k)
  {
  }

  /** What the mandatory block puts, and what it does not put. */
  lemma MandatoryEventFields(s: State, e: KavaEvent, env: Env)
    requires HasEntryId(s)
    ensures Get(MandatoryParams(s, e, env), EventType) == Some(Decimal(Code(e)))
    ensures Get(MandatoryParams(s, e, env), EventIndex) == Some(Decimal(s.eventIndex))
  {
    ContextKeeps(IdentityParams(s, e, env), s, e, env, EventType);
    ContextKeeps(IdentityParams(s, e, env), s, e, env, EventIndex);
  }

  lemma MandatoryEntryFields(s: State, e: KavaEvent, env: Env)
    requires HasEntryId(s)
    ensures Get(MandatoryParams(s, e, env), EntryId) == Some(Text(s.media.value.id.value))
    ensures Get(MandatoryParams(s, e, env), PartnerId) == Some(Decimal(s.config.partnerId))
  {
    ContextKeeps(IdentityParams(s, e, env), s, e, env, EntryId);
    ContextKeeps(IdentityParams(s, e, env), s, e, env, PartnerId);
  }

  lemma MandatoryPlaybackFields(s: State, e: KavaEvent, env: Env)
    requires HasEntryId(s)
    ensures Get(MandatoryParams(s, e, env), PlaybackTypeKey) == Some(Text(PlaybackTypeName(BeaconPlaybackType(s, e, env))))
    ensures Get(MandatoryParams(s, e, env), SessionStartTime) == TextIfPresent(s.sessionStartTime)
  {
  }

  /** The identifying puts put none of the keys of the switch. */
  lemma IdentityLacksEventKeys(s: State, e: KavaEvent, env: Env, k: ParamKey)
    requires HasEntryId(s) && EventKey(k)
    ensures Get(IdentityParams(s, e, env), k) == None
  {
  }

  lemma MandatoryLacksErrorAndJoin(s: State, e: KavaEvent, env: Env)
    requires HasEntryId(s)
    ensures Get(MandatoryParams(s, e, env), ErrorCode) == None
    ensures Get(MandatoryParams(s, e, env), JoinTime) == None
  {
    ContextKeeps(IdentityParams(s, e, env), s, e, env, ErrorCode);
    ContextKeeps(IdentityParams(s, e, env), s, e, env, JoinTime);
    IdentityLacksEventKeys(s, e, env, ErrorCode);
    IdentityLacksEventKeys(s, e, env, JoinTime);
  }

  lemma MandatoryLacksBuffering(s: State, e: KavaEvent, env: Env)
    requires HasEntryId(s)
    ensures Get(MandatoryParams(s, e, env), BufferTime) == None
    ensures Get(MandatoryParams(s, e, env), BufferTimeSum) == None
  {
    ContextKeeps(IdentityParams(s, e, env), s, e, env, BufferTime);
    ContextKeeps(IdentityParams(s, e, env), s, e, env, BufferTimeSum);
    IdentityLacksEventKeys(s, e, env, BufferTime);
    IdentityLacksEventKeys(s, e, env, BufferTimeSum);
  }

  /** The identifying puts name the service, the action and the player's session. */
  lemma MandatoryIdentityFields(s: State, e: KavaEvent, env: Env)
    requires HasEntryId(s)
    ensures Get(MandatoryParams(s, e, env), Service) == Some(Text("analytics"))
    ensures Get(MandatoryParams(s, e, env), Action) == Some(Text("trackEvent"))
    ensures Get(MandatoryParams(s, e, env), SessionId) == Some(Text(env.player.sessionId.GetOr("")))
  {
    ContextKeeps(IdentityParams(s, e, env), s, e, env, Service);
    ContextKeeps(IdentityParams(s, e, env), s, e, env, Action);
    ContextKeeps(IdentityParams(s, e, env), s, e, env, SessionId);
  }

  /** The context puts report the referrer, the delivery type, the client and the position. */
  lemma MandatoryContextFields(s: State, e: KavaEvent, env: Env)
    requires HasEntryId(s)
    ensures Get(MandatoryParams(s, e, env), Referrer) == Some(Text(s.referrer))
    ensures Get(MandatoryParams(s, e, env), DeliveryType) == Some(DeliveryValue(s.deliveryType))
    ensures Get(MandatoryParams(s, e, env), ClientVer) == Some(ClientTag)
    ensures Get(MandatoryParams(s, e, env), ClientTagKey) == Some(ClientTag)
    ensures Get(MandatoryParams(s, e, env), Position) == Some(Seconds(env.player.position))
  {
  }

  lemma MandatoryLacksDetails(s: State, e: KavaEvent, env: Env)
    requires HasEntryId(s)
    ensures Get(MandatoryParams(s, e, env), ActualBitrate) == None
    ensures Get(MandatoryParams(s, e, env), TargetPosition) == None
    ensures Get(MandatoryParams(s, e, env), Caption) == None
    ensures Get(MandatoryParams(s, e, env), Language) == None
  {
    ContextKeeps(IdentityParams(s, e, env), s, e, env, ActualBitrate);
    ContextKeeps(IdentityParams(s, e, env), s, e, env, TargetPosition);
    ContextKeeps(IdentityParams(s, e, env), s, e, env, Caption);
    ContextKeeps(IdentityParams(s, e, env), s, e, env, Language);
    IdentityLacksEventKeys(s, e, env, ActualBitrate);
    IdentityLacksEventKeys(s, e, env, TargetPosition);
    IdentityLacksEventKeys(s, e, env, Caption);
    IdentityLacksEventKeys(s, e, env, Language);
  }

  /** The mandatory block puts none of the optional configuration values. */
  lemma MandatoryLacksOptional(s: State, e: KavaEvent, env: Env, k: ParamKey)
    requires HasEntryId(s) && OptionalKey(k)
    ensures Get(MandatoryParams(s, e, env), k) == None
  {
    ContextKeeps(IdentityParams(s, e, env), s, e, env, k);
    IdentityLacksOptionalKeys(s, e, env, k);
  }

  /** The identifying puts put none of the optional configuration values. */
  lemma IdentityLacksOptionalKeys(s: State, e: KavaEvent, env: Env, k: ParamKey)
    requires HasEntryId(s) && OptionalKey(k)
    ensures Get(IdentityParams(s, e, env), k) == None
  {
  }

  /** What the `switch (event)` puts. */
  lemma EventError(m: Params, s: State, e: KavaEvent, env: Env)
    requires Get(m, ErrorCode) == None
    ensures Get(EventParams(m, s, e, env), ErrorCode)
         == if e == ERROR && s.errorCode != NoErrorCode then Some(Decimal(s.errorCode)) else None
  {
  }

  lemma EventJoin(m: Params, s: State, e: KavaEvent, env: Env)
    requires Get(m, JoinTime) == None
    ensures Get(EventParams(m, s, e, env), JoinTime)
         == if e == PLAY then Some(Seconds(JoinTimeMs(s, env))) else None
  {
  }

  lemma EventBuffer(m: Params, s: State, e: KavaEvent, env: Env)
    requires Get(m, BufferTime) == None && Get(m, BufferTimeSum) == None
    ensures Get(EventParams(m, s, e, env), BufferTime)
         == if ReportsBuffering(e) then Some(Seconds(s.totalBufferTimePerViewEvent)) else None
    ensures Get(EventParams(m, s, e, env), BufferTimeSum)
         == if ReportsBuffering(e) then Some(Seconds(s.totalBufferTimePerEntry)) else None
  {
  }

  lemma EventBitrate(m: Params, s: State, e: KavaEvent, env: Env)
    requires Get(m, ActualBitrate) == None
    ensures Get(EventParams(m, s, e, env), ActualBitrate)
         == if ReportsBuffering(e) || e == SOURCE_SELECTED || e == FLAVOR_SWITCHED
            then Some(Decimal(s.actualBitrate)) else None
  {
  }

  lemma EventTarget(m: Params, s: State, e: KavaEvent, env: Env)
    requires Get(m, TargetPosition) == None
    ensures Get(EventParams(m, s, e, env), TargetPosition)
         == if e == SEEK then Some(FloatOf(s.targetSeekPositionInSeconds)) else None
  {
  }

  lemma EventTracks(m: Params, s: State, e: KavaEvent, env: Env)
    requires Get(m, Caption) == None && Get(m, Language) == None
    ensures Get(EventParams(m, s, e, env), Caption)
         == if e == CAPTIONS then Some(OptText(s.currentCaptionLanguage)) else None
    ensures Get(EventParams(m, s, e, env), Language)
         == if e == AUDIO_SELECTED then Some(OptText(s.currentAudioLanguage)) else None
  {
  }

  /** What `addOptionalParams` puts into a map holding none of its keys. */
  lemma OptionalFields(m: Params, c: Config)
    requires Get(m, PlaybackContext) == None && Get(m, CustomVar1) == None && Get(m, CustomVar2) == None
    requires Get(m, CustomVar3) == None && Get(m, Ks) == None && Get(m, UiConfId) == None
    ensures Get(OptionalParams(m, c), PlaybackContext)
         == if c.playbackContext.Some? then Some(Text(c.playbackContext.value)) else None
    ensures Get(OptionalParams(m, c), CustomVar1)
         == if c.customVar1.Some? then Some(Text(c.customVar1.value)) else None
    ensures Get(OptionalParams(m, c), CustomVar2)
         == if c.customVar2.Some? then Some(Text(c.customVar2.value)) else None
    ensures Get(OptionalParams(m, c), CustomVar3)
         == if c.customVar3.Some? then Some(Text(c.customVar3.value)) else None
    ensures Get(OptionalParams(m, c), Ks)
         == if c.ks.Some? then Some(Text(c.ks.value)) else None
    ensures Get(OptionalParams(m, c), UiConfId)
         == if c.uiConfId.Some? then Some(Decimal(c.uiConfId.value)) else None
  {
  }

  // ---------------------------------------------------------------------------------------
  // The finished beacon

  /** Every beacon says what happened and where in the session it belongs. */
  lemma BeaconEventFields(s: State, e: KavaEvent, env: Env)
    requires HasEntryId(s)
    ensures Get(BeaconParams(s, e, env), EventType) == Some(Decimal(Code(e)))
    ensures Get(BeaconParams(s, e, env), EventIndex) == Some(Decimal(s.eventIndex))
  {
    BeaconFromMandatory(s, e, env, EventType);
    BeaconFromMandatory(s, e, env, EventIndex);
    MandatoryEventFields(s, e, env);
  }

  /** Every beacon names the partner and the entry. */
  lemma BeaconEntryFields(s: State, e: KavaEvent, env: Env)
    requires HasEntryId(s)
    ensures Get(BeaconParams(s, e, env), EntryId) == Some(Text(s.media.value.id.value))
    ensures Get(BeaconParams(s, e, env), PartnerId) == Some(Decimal(s.config.partnerId))
  {
    BeaconFromMandatory(s, e, env, EntryId);
    BeaconFromMandatory(s, e, env, PartnerId);
    MandatoryEntryFields(s, e, env);
  }

  /**
   * Every beacon reports the playback type `getPlaybackType` computes for its event, and the
   * session start time exactly when the server has sent one.
   */
  lemma BeaconPlaybackFields(s: State, e: KavaEvent, env: Env)
    requires HasEntryId(s)
    ensures Get(BeaconParams(s, e, env), PlaybackTypeKey)
         == Some(Text(PlaybackTypeName(BeaconPlaybackType(s, e, env))))
    ensures Get(BeaconParams(s, e, env), SessionStartTime) == TextIfPresent(s.sessionStartTime)
  {
    BeaconFromMandatory(s, e, env, PlaybackTypeKey);
    BeaconFromMandatory(s, e, env, SessionStartTime);
    MandatoryPlaybackFields(s, e, env);
  }

  /** Only an ERROR beacon carries an error code, and only when one is stored. */
  lemma BeaconErrorCode(s: State, e: KavaEvent, env: Env)
    requires HasEntryId(s)
    ensures Get(BeaconParams(s, e, env), ErrorCode)
         == if e == ERROR && s.errorCode != NoErrorCode then Some(Decimal(s.errorCode)) else None
  {
    var m := MandatoryParams(s, e, env);
    BeaconBlocks(s, e, env);
    OptionalKeeps(EventParams(m, s, e, env), s.config, ErrorCode);
    MandatoryLacksErrorAndJoin(s, e, env);
    EventError(m, s, e, env);
  }

  /** Only the PLAY beacon carries the join time: the time since the play request. */
  lemma BeaconJoinTime(s: State, e: KavaEvent, env: Env)
    requires HasEntryId(s)
    ensures Get(BeaconParams(s, e, env), JoinTime)
         == if e == PLAY then Some(Seconds(JoinTimeMs(s, env))) else None
  {
    var m := MandatoryParams(s, e, env);
    BeaconBlocks(s, e, env);
    OptionalKeeps(EventParams(m, s, e, env), s.config, JoinTime);
    MandatoryLacksErrorAndJoin(s, e, env);
    EventJoin(m, s, e, env);
  }

  /** Exactly the VIEW, PLAY and RESUME beacons report the buffering times. */
  lemma BeaconBufferTimes(s: State, e: KavaEvent, env: Env)
    requires HasEntryId(s)
    ensures Get(BeaconParams(s, e, env), BufferTime)
         == if ReportsBuffering(e) then Some(Seconds(s.totalBufferTimePerViewEvent)) else None
    ensures Get(BeaconParams(s, e, env), BufferTimeSum)
         == if ReportsBuffering(e) then Some(Seconds(s.totalBufferTimePerEntry)) else None
  {
    var m := MandatoryParams(s, e, env);
    BeaconBlocks(s, e, env);
    OptionalKeeps(EventParams(m, s, e, env), s.config, BufferTime);
    OptionalKeeps(EventParams(m, s, e, env), s.config, BufferTimeSum);
    MandatoryLacksBuffering(s, e, env);
    EventBuffer(m, s, e, env);
  }

  /** Every beacon names the service and the action. */
  lemma BeaconServiceFields(s: State, e: KavaEvent, env: Env)
    requires HasEntryId(s)
    ensures Get(BeaconParams(s, e, env), Service) == Some(Text("analytics"))
    ensures Get(BeaconParams(s, e, env), Action) == Some(Text("trackEvent"))
  {
    BeaconFromMandatory(s, e, env, Service);
    BeaconFromMandatory(s, e, env, Action);
    MandatoryIdentityFields(s, e, env);
  }

  /** Every beacon names the player's session, or the empty one, and the referrer. */
  lemma BeaconSessionFields(s: State, e: KavaEvent, env: Env)
    requires HasEntryId(s)
    ensures Get(BeaconParams(s, e, env), SessionId) == Some(Text(env.player.sessionId.GetOr("")))
    ensures Get(BeaconParams(s, e, env), Referrer) == Some(Text(s.referrer))
  {
    BeaconFromMandatory(s, e, env, SessionId);
    BeaconFromMandatory(s, e, env, Referrer);
    MandatoryIdentityFields(s, e, env);
    MandatoryContextFields(s, e, env);
  }

  /** Every beacon reports the delivery type and the playback position. */
  lemma BeaconDeliveryFields(s: State, e: KavaEvent, env: Env)
    requires HasEntryId(s)
    ensures Get(BeaconParams(s, e, env), DeliveryType) == Some(DeliveryValue(s.deliveryType))
    ensures Get(BeaconParams(s, e, env), Position) == Some(Seconds(env.player.position))
  {
    BeaconFromMandatory(s, e, env, DeliveryType);
    BeaconFromMandatory(s, e, env, Position);
    MandatoryContextFields(s, e, env);
  }

  /** Every beacon reports the client library's tag as both client version and client tag. */
  lemma BeaconClientFields(s: State, e: KavaEvent, env: Env)
    requires HasEntryId(s)
    ensures Get(BeaconParams(s, e, env), ClientVer) == Some(ClientTag)
    ensures Get(BeaconParams(s, e, env), ClientTagKey) == Some(ClientTag)
  {
    BeaconFromMandatory(s, e, env, ClientVer);
    BeaconFromMandatory(s, e, env, ClientTagKey);
    MandatoryContextFields(s, e, env);
  }

  /**
   * Exactly the VIEW, PLAY, RESUME, SOURCE_SELECTED and FLAVOR_SWITCHED beacons report the
   * bitrate, and exactly the SEEK beacon the seek target.
   */
  lemma BeaconBitrateAndTarget(s: State, e: KavaEvent, env: Env)
    requires HasEntryId(s)
    ensures Get(BeaconParams(s, e, env), ActualBitrate)
         == if ReportsBuffering(e) || e == SOURCE_SELECTED || e == FLAVOR_SWITCHED
            then Some(Decimal(s.actualBitrate)) else None
    ensures Get(BeaconParams(s, e, env), TargetPosition)
         == if e == SEEK then Some(FloatOf(s.targetSeekPositionInSeconds)) else None
  {
    var m := MandatoryParams(s, e, env);
    BeaconBlocks(s, e, env);
    OptionalKeeps(EventParams(m, s, e, env), s.config, ActualBitrate);
    OptionalKeeps(EventParams(m, s, e, env), s.config, TargetPosition);
    MandatoryLacksDetails(s, e, env);
    EventBitrate(m, s, e, env);
    EventTarget(m, s, e, env);
  }

  /** Exactly the CAPTIONS beacon reports the caption language, and the AUDIO_SELECTED beacon the audio language. */
  lemma BeaconTrackFields(s: State, e: KavaEvent, env: Env)
    requires HasEntryId(s)
    ensures Get(BeaconParams(s, e, env), Caption)
         == if e == CAPTIONS then Some(OptText(s.currentCaptionLanguage)) else None
    ensures Get(BeaconParams(s, e, env), Language)
         == if e == AUDIO_SELECTED then Some(OptText(s.currentAudioLanguage)) else None
  {
    var m := MandatoryParams(s, e, env);
    BeaconBlocks(s, e, env);
    OptionalKeeps(EventParams(m, s, e, env), s.config, Caption);
    OptionalKeeps(EventParams(m, s, e, env), s.config, Language);
    MandatoryLacksDetails(s, e, env);
    EventTracks(m, s, e, env);
  }

  /** Every beacon carries exactly the optional configuration values that are set. */
  lemma BeaconOptionalFields(s: State, e: KavaEvent, env: Env)
    requires HasEntryId(s)
    ensures var c := s.config;
      && Get(BeaconParams(s, e, env), PlaybackContext)
         == (if c.playbackContext.Some? then Some(Text(c.playbackContext.value)) else None)
      && Get(BeaconParams(s, e, env), CustomVar1)
         == (if c.customVar1.Some? then Some(Text(c.customVar1.value)) else None)
      && Get(BeaconParams(s, e, env), CustomVar2)
         == (if c.customVar2.Some? then Some(Text(c.customVar2.value)) else None)
      && Get(BeaconParams(s, e, env), CustomVar3)
         == (if c.customVar3.Some? then Some(Text(c.customVar3.value)) else None)
      && Get(BeaconParams(s, e, env), Ks)
         == (if c.ks.Some? then Some(Text(c.ks.value)) else None)
      && Get(BeaconParams(s, e, env), UiConfId)
         == (if c.uiConfId.Some? then Some(Decimal(c.uiConfId.value)) else None)
  {
    var m := MandatoryParams(s, e, env);
    var m2 := EventParams(m, s, e, env);
    BeaconBlocks(s, e, env);
    forall k | OptionalKey(k)
      ensures Get(m2, k) == None
    {
      EventKeeps(m, s, e, env, k);
      MandatoryLacksOptional(s, e, env, k);
    }
    OptionalFields(m2, s.config);
  }

  // ---------------------------------------------------------------------------------------
  // What the listener queues

  /**
   * An ERROR queues one request, after those already queued, that reports its own error's
   * code when it has one and never a code stored by an earlier error; the stored code is
   * consumed with it.
   */
  lemma ErrorQueued(s: State, t: ErrorType, env: Env)
    requires CanSend(s)
    ensures var r := OnError(s, t, env);
      && s.beacons <= r.beacons && |r.beacons| == |s.beacons| + 1
      && Get(r.beacons[|s.beacons|], EventType) == Some(Decimal(Code(ERROR)))
      && Get(r.beacons[|s.beacons|], ErrorCode)
         == (if ErrorCodeOf(t) != NoErrorCode then Some(Decimal(ErrorCodeOf(t))) else None)
      && r.errorCode == NoErrorCode
  {
    var u := s.(errorCode := ErrorCodeOf(t));
    OnErrorEffect(s, t, env);
    assert OnError(s, t, env).beacons == s.beacons + [BeaconParams(u, ERROR, env)];
    BeaconEventFields(u, ERROR, env);
    BeaconErrorCode(u, ERROR, env);
  }

  /**
   * The first PLAYING of a media queues one PLAY request reporting the join time, the time
   * since the play request, and the buffering of the view period and of the entry so far.
   */
  lemma PlayQueued(s: State, env: Env)
    requires CanSend(s) && s.isFirstPlay
    ensures var r := OnPlaying(s, env);
      && s.beacons <= r.beacons && |r.beacons| == |s.beacons| + 1
      && Get(r.beacons[|s.beacons|], EventType) == Some(Decimal(Code(PLAY)))
      && Get(r.beacons[|s.beacons|], JoinTime) == Some(Seconds(env.now - s.joinTimeStartTimestamp))
      && Get(r.beacons[|s.beacons|], BufferTime) == Some(Seconds(s.totalBufferTimePerViewEvent))
      && Get(r.beacons[|s.beacons|], BufferTimeSum) == Some(Seconds(s.totalBufferTimePerEntry))
  {
    var u := s.(isFirstPlay := false);
    OnPlayingEffect(s, env);
    assert OnPlaying(s, env).beacons == s.beacons + [BeaconParams(u, PLAY, env)];
    BeaconEventFields(u, PLAY, env);
    BeaconJoinTime(u, PLAY, env);
    BeaconBufferTimes(u, PLAY, env);
  }

  /**
   * A tick that completes a view period queues one VIEW request reporting the buffering of
   * that period and of the entry so far; the period's total then restarts, so no buffering is
   * reported by two VIEW requests.
   */
  lemma ViewQueued(s: State, env: Env)
    requires CanSend(s) && ViewDue(s.viewEventTimeCounter)
    ensures var r := MaybeSendViewEvent(s, env);
      && s.beacons <= r.beacons && |r.beacons| == |s.beacons| + 1
      && Get(r.beacons[|s.beacons|], EventType) == Some(Decimal(Code(VIEW)))
      && Get(r.beacons[|s.beacons|], BufferTime) == Some(Seconds(s.totalBufferTimePerViewEvent))
      && Get(r.beacons[|s.beacons|], BufferTimeSum) == Some(Seconds(s.totalBufferTimePerEntry))
      && r.totalBufferTimePerViewEvent == 0
  {
    var u := s.(viewEventTimeCounter := s.viewEventTimeCounter + OneSecondInMs);
    MaybeSendViewEventEffect(s, env);
    assert MaybeSendViewEvent(s, env).beacons == s.beacons + [BeaconParams(u, VIEW, env)];
    BeaconEventFields(u, VIEW, env);
    BeaconBufferTimes(u, VIEW, env);
  }

  /** A SEEKING queues one SEEK request reporting the target in whole seconds. */
  lemma SeekQueued(s: State, targetPosition: int, env: Env)
    requires CanSend(s)
    ensures var r := OnSeeking(s, targetPosition, env);
      && s.beacons <= r.beacons && |r.beacons| == |s.beacons| + 1
      && Get(r.beacons[|s.beacons|], EventType) == Some(Decimal(Code(SEEK)))
      && Get(r.beacons[|s.beacons|], TargetPosition) == Some(FloatOf(WholeSeconds(targetPosition)))
  {
    var u := s.(targetSeekPositionInSeconds := WholeSeconds(targetPosition));
    EmitSends(u, SEEK, env);
    BeaconEventFields(u, SEEK, env);
    BeaconBitrateAndTarget(u, SEEK, env);
  }

  /** A bitrate change queues one FLAVOR_SWITCHED request reporting the new bitrate. */
  lemma FlavorQueued(s: State, videoBitrate: int, env: Env)
    requires CanSend(s) && s.actualBitrate != videoBitrate
    ensures var r := OnPlaybackInfoUpdated(s, videoBitrate, env);
      && s.beacons <= r.beacons && |r.beacons| == |s.beacons| + 1
      && Get(r.beacons[|s.beacons|], EventType) == Some(Decimal(Code(FLAVOR_SWITCHED)))
      && Get(r.beacons[|s.beacons|], ActualBitrate) == Some(Decimal(videoBitrate))
  {
    var u := s.(actualBitrate := videoBitrate);
    EmitSends(u, FLAVOR_SWITCHED, env);
    BeaconEventFields(u, FLAVOR_SWITCHED, env);
    BeaconBitrateAndTarget(u, FLAVOR_SWITCHED, env);
  }

  /** A video track change queues one SOURCE_SELECTED request reporting the track's bitrate. */
  lemma SourceSelectedQueued(s: State, bitrate: int, env: Env)
    requires CanSend(s)
    ensures var r := OnVideoTrackChanged(s, bitrate, env);
      && s.beacons <= r.beacons && |r.beacons| == |s.beacons| + 1
      && Get(r.beacons[|s.beacons|], EventType) == Some(Decimal(Code(SOURCE_SELECTED)))
      && Get(r.beacons[|s.beacons|], ActualBitrate) == Some(Decimal(bitrate))
  {
    var u := s.(actualBitrate := bitrate);
    EmitSends(u, SOURCE_SELECTED, env);
    BeaconEventFields(u, SOURCE_SELECTED, env);
    BeaconBitrateAndTarget(u, SOURCE_SELECTED, env);
  }

  /** An audio track change queues one AUDIO_SELECTED request reporting the new language. */
  lemma AudioSelectedQueued(s: State, language: Option<string>, env: Env)
    requires CanSend(s)
    ensures var r := OnAudioTrackChanged(s, language, env);
      && s.beacons <= r.beacons && |r.beacons| == |s.beacons| + 1
      && Get(r.beacons[|s.beacons|], EventType) == Some(Decimal(Code(AUDIO_SELECTED)))
      && Get(r.beacons[|s.beacons|], Language) == Some(OptText(language))
  {
    var u := s.(currentAudioLanguage := language);
    EmitSends(u, AUDIO_SELECTED, env);
    BeaconEventFields(u, AUDIO_SELECTED, env);
    BeaconTrackFields(u, AUDIO_SELECTED, env);
  }

  /** A text track change queues one CAPTIONS request reporting the new caption language. */
  lemma CaptionsQueued(s: State, language: Option<string>, env: Env)
    requires CanSend(s)
    ensures var r := OnTextTrackChanged(s, language, env);
      && s.beacons <= r.beacons && |r.beacons| == |s.beacons| + 1
      && Get(r.beacons[|s.beacons|], EventType) == Some(Decimal(Code(CAPTIONS)))
      && Get(r.beacons[|s.beacons|], Caption) == Some(OptText(language))
  {
    var u := s.(currentCaptionLanguage := language);
    EmitSends(u, CAPTIONS, env);
    BeaconEventFields(u, CAPTIONS, env);
    BeaconTrackFields(u, CAPTIONS, env);
  }
}
