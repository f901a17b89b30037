/**
 * The playback-analytics state machine of the KAVA plugin as pure functions: one function per
 * case of the player-event listener, per timer action and per callback, each taking the plugin
 * state before the signal to the state after it. Beacons handed to the transport are appended
 * to `sent`; the class in module `Kava` is proved to perform exactly these transitions.
 */
module Session {
  import opened Options
  import opened KavaEvents
  import opened Playback
  import opened LinkedMaps
  import opened ParamMaps

  const OneSecondInMs: int := 1000
  const TenSecondsInMs: int := 10000
  /** The host library's milliseconds-per-second multiplier. */
  const MillisecondsMultiplier: int := 1000
  /** Sentinel of `errorCode`: no code known. */
  const NoErrorCode: int := -1
  /** Sentinel of `actualBitrate`: no bitrate known. */
  const NoBitrate: int := -1

  /** The plugin configuration (`KavaAnalyticsConfig`); the base URL is not modelled. */
  datatype Config = Config(
    partnerId: int,
    partnerIdValid: bool,
    referrerAsBase64: Option<string>,
    dvrThreshold: int,
    playbackContext: Option<string>,
    customVar1: Option<string>,
    customVar2: Option<string>,
    customVar3: Option<string>,
    ks: Option<string>,
    uiConfId: Option<int>)

  /** The media entry of the current media config. */
  datatype MediaEntry = MediaEntry(id: Option<string>, mediaType: MediaEntryType)

  /** The player states `handleStateChanged` distinguishes. */
  datatype PlayerState = Buffering | Ready | OtherState

  /** The type of a player error, from which the numeric code is taken. */
  datatype ErrorType = PlayerError(playerCode: int) | AdError(adCode: int) | OtherError

  /** The player events the listener receives. */
  datatype PlayerEvent =
    | StateChanged(newState: PlayerState)
    | LoadedMetadata
    | Play
    | Pause
    | Playing
    | Seeking(targetPosition: int)
    | Replay
    | SourceSelected(format: MediaFormat)
    | Ended
    | PlaybackInfoUpdated(videoBitrate: int)
    | VideoTrackChanged(bitrate: int)
    | AudioTrackChanged(audioLanguage: Option<string>)
    | TextTrackChanged(textLanguage: Option<string>)
    | Error(errorType: ErrorType)
    | OtherPlayerEvent

  /** Everything that reaches the plugin: host calls, player events, timer ticks, responses. */
  datatype Signal =
    | UpdateMedia(media: MediaEntry)
    | UpdateConfig(config: Config, defaultReferrer: string)
    | PlayerSignal(event: PlayerEvent)
    | TimerTick
    | ApplicationPaused
    | ApplicationResumed
    | Destroy
    | Response(body: Option<string>)

  /** The wall clock and the player's answers when a signal is handled. */
  datatype Env = Env(now: int, player: PlayerInfo)

  datatype Input = Input(signal: Signal, env: Env)

  /**
   * The fields of the plugin that the analytics logic reads and writes, with two logs: `sent`,
   * the events handed to the request queue, and `beacons`, the parameter maps queued for them.
   */
  datatype State = State(
    playReached25: bool,
    playReached50: bool,
    playReached75: bool,
    playReached100: bool,
    isAutoPlay: bool,
    isImpressionSent: bool,
    isEnded: bool,
    isPaused: bool,
    isFirstPlay: bool,
    eventIndex: int,
    errorCode: int,
    viewEventTimeCounter: int,
    actualBitrate: int,
    joinTimeStartTimestamp: int,
    totalBufferTimePerEntry: int,
    lastKnownBufferingTimestamp: int,
    totalBufferTimePerViewEvent: int,
    targetSeekPositionInSeconds: int,
    referrer: string,
    deliveryType: Option<StreamFormat>,
    sessionStartTime: Option<string>,
    currentAudioLanguage: Option<string>,
    currentCaptionLanguage: Option<string>,
    timerRunning: bool,
    config: Config,
    media: Option<MediaEntry>,
    sent: seq<KavaEvent>,
    beacons: seq<Params>)

  /** How many beacons so far carried event `e`. */
  function Count(e: KavaEvent, s: State): nat {
    multiset(s.sent)[e]
  }

  /** A beacon can be sent: the partner id is valid and the media entry has an id. */
  predicate CanSend(s: State) {
    s.config.partnerIdValid && s.media.Some? && s.media.value.id.Some?
  }

  /** The events that actually leave the plugin when it decides to send `es`. */
  function Out(s: State, es: seq<KavaEvent>): seq<KavaEvent> {
    if CanSend(s) then es else []
  }


  /** `onLoad` on a new plugin: Java's field defaults followed by `onUpdateConfig`. */
  function Loaded(config: Config, defaultReferrer: string): State {
    OnUpdateConfig(
      State(false, false, false, false, false, false, false, true, true,
            0, NoErrorCode, 0, NoBitrate, 0, 0, 0, 0, 0, "",
            None, None, None, None, false, config, None, [], []),
      config, defaultReferrer)
  }

  /** A new plugin is paused before its first play, has sent nothing and runs no timer. */
  lemma LoadedEffect(config: Config, defaultReferrer: string)
    ensures var r := Loaded(config, defaultReferrer);
      && r.isPaused && r.isFirstPlay && !r.isImpressionSent && !r.isAutoPlay && !r.timerRunning
      && r.errorCode == NoErrorCode && r.actualBitrate == NoBitrate && r.sent == [] && r.media.None?
      && r.config == config
  {
  }

  // ---------------------------------------------------------------------------------------
  // Configuration and media

  /** `onUpdateConfig`: store the configuration; a missing referrer falls back to the default. */
  function OnUpdateConfig(s: State, config: Config, defaultReferrer: string): State {
    s.(config := config, referrer := config.referrerAsBase64.GetOr(defaultReferrer))
  }

  /** The referrer is the configured one when there is one, the default one otherwise. */
  lemma OnUpdateConfigEffect(s: State, config: Config, defaultReferrer: string)
    ensures var r := OnUpdateConfig(s, config, defaultReferrer);
      && r == s.(config := config, referrer := r.referrer)
      && (config.referrerAsBase64.Some? ==> r.referrer == config.referrerAsBase64.value)
      && (config.referrerAsBase64.None? ==> r.referrer == defaultReferrer)
  {
  }

  /** `resetFlags`. */
  function ResetFlags(s: State): State {
    s.(isPaused := true, isEnded := false, isFirstPlay := true, errorCode := NoErrorCode,
       actualBitrate := NoBitrate, totalBufferTimePerEntry := 0, totalBufferTimePerViewEvent := 0)
  }

  /** `resetPlayerReachedFlags`. */
  function ResetPlayerReachedFlags(s: State): State {
    s.(playReached25 := false, playReached50 := false, playReached75 := false, playReached100 := false)
  }

  /** `onUpdateMedia`: a new media session. */
  function OnUpdateMedia(s: State, media: MediaEntry): State {
    ResetPlayerReachedFlags(ResetFlags(s.(media := Some(media), sessionStartTime := None, eventIndex := 1)))
  }

  /**
   * A new media session starts paused, before its first play, with no milestone reached and
   * an event index of 1. The impression and autoplay flags, the buffering mark, the timer and
   * its view counter survive it, and nothing is sent or queued.
   */
  lemma OnUpdateMediaEffect(s: State, media: MediaEntry)
    ensures var r := OnUpdateMedia(s, media);
      && r.media == Some(media) && r.sessionStartTime.None? && r.eventIndex == 1
      && r.isPaused && !r.isEnded && r.isFirstPlay
      && r.errorCode == NoErrorCode && r.actualBitrate == NoBitrate
      && r.totalBufferTimePerEntry == 0 && r.totalBufferTimePerViewEvent == 0
      && !r.playReached25 && !r.playReached50 && !r.playReached75 && !r.playReached100
      && r.isImpressionSent == s.isImpressionSent && r.isAutoPlay == s.isAutoPlay
      && r.lastKnownBufferingTimestamp == s.lastKnownBufferingTimestamp
      && r.viewEventTimeCounter == s.viewEventTimeCounter && r.timerRunning == s.timerRunning
      && r.sent == s.sent && r.beacons == s.beacons
  {
  }

  // ---------------------------------------------------------------------------------------
  // Parameters and sending

  /** The entry id is there to be read (`sendAnalyticsEvent` checks it before building params). */
  predicate HasEntryId(s: State) {
    s.media.Some? && s.media.value.id.Some?
  }

  /** The `deliveryType` value: the selected format's name, or null before any source was selected. */
  function DeliveryValue(d: Option<StreamFormat>): ParamValue {
    if d.Some? then FormatName(d.value) else Null
  }

  /** The playback type a beacon reports (the player is present while events arrive). */
  function BeaconPlaybackType(s: State, e: KavaEvent, env: Env): PlaybackType
    requires HasEntryId(s)
  {
    GetPlaybackType(s.media.value.mediaType, e == ERROR, Some(env.player), s.config.dvrThreshold)
  }

  /** The events of the first branch of the switch, which report the buffering times. */
  predicate ReportsBuffering(e: KavaEvent) {
    e == VIEW || e == PLAY || e == RESUME
  }

  /** The time since the play request, as the PLAY beacon reports it. */
  function JoinTimeMs(s: State, env: Env): int {
    env.now - s.joinTimeStartTimestamp
  }

  /**
   * The puts of `gatherParams` before its switch, into a new `LinkedHashMap`: the parameters
   * that identify the beacon, then those that describe its context.
   */
  function MandatoryParams(s: State, e: KavaEvent, env: Env): Params
    requires HasEntryId(s)
  {
    ContextParams(IdentityParams(s, e, env), s, e, env)
  }

  /** The first seven puts: what the beacon is, for whom, and where in the session it belongs. */
  function IdentityParams(s: State, e: KavaEvent, env: Env): Params
    requires HasEntryId(s)
  {
    var m0 := Put(EmptyParams, Service, Text("analytics"));
    var m1 := Put(m0, Action, Text("trackEvent"));
    var m2 := Put(m1, EventType, Decimal(Code(e)));
    var m3 := Put(m2, PartnerId, Decimal(s.config.partnerId));
    var m4 := Put(m3, EntryId, Text(s.media.value.id.value));
    var m5 := Put(m4, SessionId, Text(env.player.sessionId.GetOr("")));
    Put(m5, EventIndex, Decimal(s.eventIndex))
  }

  /**
   * The remaining puts, into `m`: the referrer, the delivery and playback types, the client,
   * the position, and the session start time once the server has sent one.
   */
  function ContextParams(m: Params, s: State, e: KavaEvent, env: Env): Params
    requires HasEntryId(s)
  {
    var m7 := Put(m, Referrer, Text(s.referrer));
    var m8 := Put(m7, DeliveryType, DeliveryValue(s.deliveryType));
    var m9 := Put(m8, PlaybackTypeKey, Text(PlaybackTypeName(BeaconPlaybackType(s, e, env))));
    var m10 := Put(m9, ClientVer, ClientTag);
    var m11 := Put(m10, ClientTagKey, ClientTag);
    var m12 := Put(m11, Position, Seconds(env.player.position));
    if s.sessionStartTime.Some? then Put(m12, SessionStartTime, Text(s.sessionStartTime.value))
    else m12
  }

  /** The `switch (event)` of `gatherParams`: the puts particular to the event, into `m`. */
  function EventParams(m: Params, s: State, e: KavaEvent, env: Env): Params {
    match e
    case VIEW | PLAY | RESUME =>
      var m0 := Put(m, BufferTime, Seconds(s.totalBufferTimePerViewEvent));
      var m1 := Put(m0, BufferTimeSum, Seconds(s.totalBufferTimePerEntry));
      var m2 := Put(m1, ActualBitrate, Decimal(s.actualBitrate));
      if e == PLAY then Put(m2, JoinTime, Seconds(JoinTimeMs(s, env))) else m2
    case SEEK => Put(m, TargetPosition, FloatOf(s.targetSeekPositionInSeconds))
    case SOURCE_SELECTED | FLAVOR_SWITCHED => Put(m, ActualBitrate, Decimal(s.actualBitrate))
    case CAPTIONS => Put(m, Caption, OptText(s.currentCaptionLanguage))
    case AUDIO_SELECTED => Put(m, Language, OptText(s.currentAudioLanguage))
    case ERROR => if s.errorCode != NoErrorCode then Put(m, ErrorCode, Decimal(s.errorCode)) else m
    case _ => m
  }

  /** `addOptionalParams`: the puts of the optional configuration values present, into `m`. */
  function OptionalParams(m: Params, c: Config): Params {
    var m0 := if c.playbackContext.Some? then Put(m, PlaybackContext, Text(c.playbackContext.value)) else m;
    var m1 := if c.customVar1.Some? then Put(m0, CustomVar1, Text(c.customVar1.value)) else m0;
    var m2 := if c.customVar2.Some? then Put(m1, CustomVar2, Text(c.customVar2.value)) else m1;
    var m3 := if c.customVar3.Some? then Put(m2, CustomVar3, Text(c.customVar3.value)) else m2;
    var m4 := if c.ks.Some? then Put(m3, Ks, Text(c.ks.value)) else m3;
    if c.uiConfId.Some? then Put(m4, UiConfId, Decimal(c.uiConfId.value)) else m4
  }

  /**
   * The map `gatherParams` returns for event `e` in state `s`; module `BeaconContents` proves
   * what it holds.
   */
  function BeaconParams(s: State, e: KavaEvent, env: Env): Params
    requires HasEntryId(s)
  {
    Gathered(3, s, e, env)
  }

  /**
   * The map after the first `blocks` blocks of `gatherParams`: the mandatory puts, the
   * `switch (event)`, `addOptionalParams`. Written as a recursion so that a proof about a
   * beacon unfolds it one block at a time.
   */
  function Gathered(blocks: nat, s: State, e: KavaEvent, env: Env): Params
    requires HasEntryId(s) && 1 <= blocks <= 3
  {
    if blocks == 1 then MandatoryParams(s, e, env)
    else if blocks == 2 then EventParams(Gathered(1, s, e, env), s, e, env)
    else OptionalParams(Gathered(2, s, e, env), s.config)
  }

  /** A beacon is its three blocks applied in turn. */
  lemma BeaconBlocks(s: State, e: KavaEvent, env: Env)
    requires HasEntryId(s)
    ensures BeaconParams(s, e, env)
         == OptionalParams(EventParams(MandatoryParams(s, e, env), s, e, env), s.config)
  {
    assert Gathered(2, s, e, env) == EventParams(MandatoryParams(s, e, env), s, e, env);
  }

  /** The request `sendAnalyticsEvent(e)` queues in state `s`: its beacon, if one can be sent. */
  function Queued(s: State, e: KavaEvent, env: Env): seq<Params> {
    if CanSend(s) then [BeaconParams(s, e, env)] else []
  }

  /**
   * `sendAnalyticsEvent(e)`: nothing happens without a valid partner id and an entry id;
   * otherwise the beacon is gathered and queued, and `eventIndex` moves on. Building an ERROR
   * beacon consumes the stored error code.
   */
  function Emit(s: State, e: KavaEvent, env: Env): State {
    s.(sent := s.sent + Out(s, [e]),
       beacons := s.beacons + Queued(s, e, env),
       eventIndex := s.eventIndex + |Out(s, [e])|,
       errorCode := if CanSend(s) && e == ERROR then NoErrorCode else s.errorCode)
  }

  /**
   * A send logs the event, queues its beacon and moves the index on exactly when a beacon can
   * be sent; the beacon is built from the state before the send.
   */
  lemma EmitEffect(s: State, e: KavaEvent, env: Env)
    ensures !CanSend(s) ==> Emit(s, e, env) == s
    ensures var r := Emit(s, e, env);
      && r == s.(sent := r.sent, beacons := r.beacons, eventIndex := r.eventIndex,
                 errorCode := r.errorCode)
      && r.eventIndex == s.eventIndex + |Out(s, [e])|
      && r.errorCode == (if CanSend(s) && e == ERROR then NoErrorCode else s.errorCode)
      && r.sent == s.sent + Out(s, [e])
      && r.beacons == s.beacons + (if CanSend(s) then [BeaconParams(s, e, env)] else [])
  {
    if CanSend(s) {
      assert Out(s, [e]) == [e];
    }
  }

  /** A send that happens is four field updates: the error code, the log, the queue and the index. */
  lemma EmitSends(s: State, e: KavaEvent, env: Env)
    requires CanSend(s)
    ensures Emit(s, e, env) == s.(errorCode := if e == ERROR then NoErrorCode else s.errorCode,
                                  sent := s.sent + [e], beacons := s.beacons + [BeaconParams(s, e, env)],
                                  eventIndex := s.eventIndex + 1)
  {
  }

  /**
   * From `s` to `r` every request queued is kept, in place, and one request is queued per
   * event logged meanwhile: no transition rewrites or drops a request.
   */
  predicate QueueKept(s: State, r: State) {
    s.beacons <= r.beacons && |r.beacons| - |s.beacons| == |r.sent| - |s.sent|
  }

  lemma QueueKeptTrans(a: State, b: State, c: State)
    requires QueueKept(a, b) && QueueKept(b, c)
    ensures QueueKept(a, c)
  {
    assert c.beacons[..|a.beacons|] == b.beacons[..|a.beacons|];
  }

  /** Deciding to send `a` and then `b` after a log `x` is deciding to send `a + b`. */
  lemma AppendOut(s: State, x: seq<KavaEvent>, a: seq<KavaEvent>, b: seq<KavaEvent>)
    ensures x + Out(s, a) + Out(s, b) == x + Out(s, a + b)
  {
    if CanSend(s) {
      assert x + a + b == x + (a + b);
    } else {
      assert x + [] + [] == x;
    }
  }

  // ---------------------------------------------------------------------------------------
  // Timer

  /** `startAnalyticsTimer`: a running timer is cancelled and its view counter restarts. */
  function StartAnalyticsTimer(s: State): State {
    var s := if s.timerRunning then s.(viewEventTimeCounter := 0, timerRunning := false) else s;
    s.(timerRunning := true)
  }

  /** The timer runs afterwards; the view counter restarts only if a timer was running. */
  lemma StartAnalyticsTimerEffect(s: State)
    ensures var r := StartAnalyticsTimer(s);
      && r == s.(timerRunning := true, viewEventTimeCounter := r.viewEventTimeCounter)
      && r.viewEventTimeCounter == (if s.timerRunning then 0 else s.viewEventTimeCounter)
  {
    if s.timerRunning {
      assert StartAnalyticsTimer(s) == s.(viewEventTimeCounter := 0, timerRunning := true);
    } else {
      assert StartAnalyticsTimer(s) == s.(timerRunning := true);
    }
  }

  /** `stopAnalyticsTimer`: the view counter is left as it is. */
  function StopAnalyticsTimer(s: State): State {
    if !s.timerRunning then s else s.(timerRunning := false)
  }

  lemma StopAnalyticsTimerEffect(s: State)
    ensures StopAnalyticsTimer(s) == s.(timerRunning := false)
  {
    if !s.timerRunning {
      assert StopAnalyticsTimer(s) == s;
    }
  }

  /** `maybeSendViewEvent`. */
  function MaybeSendViewEvent(s: State, env: Env): State {
    var s := s.(viewEventTimeCounter := s.viewEventTimeCounter + OneSecondInMs);
    if s.viewEventTimeCounter >= TenSecondsInMs then
      Emit(s, VIEW, env).(viewEventTimeCounter := 0, totalBufferTimePerViewEvent := 0)
    else s
  }

  /** Whether the tick after a view counter of `counter` milliseconds completes a view period. */
  predicate ViewDue(counter: int) {
    counter + OneSecondInMs >= TenSecondsInMs
  }

  /**
   * Each tick adds a second; when ten seconds are complete a VIEW goes out and both the
   * counter and the buffering time of the view period restart, whether or not it was sent.
   */
  lemma MaybeSendViewEventEffect(s: State, env: Env)
    ensures var r := MaybeSendViewEvent(s, env);
      && r == s.(viewEventTimeCounter := r.viewEventTimeCounter,
                 totalBufferTimePerViewEvent := r.totalBufferTimePerViewEvent,
                 sent := r.sent, beacons := r.beacons, eventIndex := r.eventIndex)
      && r.viewEventTimeCounter == (if ViewDue(s.viewEventTimeCounter) then 0
                                    else s.viewEventTimeCounter + OneSecondInMs)
      && r.totalBufferTimePerViewEvent == (if ViewDue(s.viewEventTimeCounter) then 0
                                           else s.totalBufferTimePerViewEvent)
      && r.sent == s.sent + Out(s, if ViewDue(s.viewEventTimeCounter) then [VIEW] else [])
      && r.eventIndex == s.eventIndex + |Out(s, if ViewDue(s.viewEventTimeCounter) then [VIEW] else [])|
      && r.beacons == s.beacons +
           if ViewDue(s.viewEventTimeCounter)
           then Queued(s.(viewEventTimeCounter := s.viewEventTimeCounter + OneSecondInMs), VIEW, env)
           else []
  {
    var t := s.(viewEventTimeCounter := s.viewEventTimeCounter + OneSecondInMs);
    if ViewDue(s.viewEventTimeCounter) {
      EmitEffect(t, VIEW, env);
    } else {
      assert MaybeSendViewEvent(s, env) == t;
    }
  }

  /**
   * `maybeSentPlayerReachedEvent`: on VOD content past the first quartile, each quartile
   * milestone crossed for the first time is marked and announced, in ascending order.
   */
  function MaybeSendPlayerReachedEvent(s: State, env: Env): State {
    var p := env.player;
    if p.isLive || ProgressBelow(p.position, p.duration, 1) then s
    else ReachThreeQuarters(ReachHalf(ReachQuarter(s, env), env), env)
  }

  /** The first milestone block of `maybeSentPlayerReachedEvent`. */
  function ReachQuarter(s: State, env: Env): State {
    if !s.playReached25 then Emit(s.(playReached25 := true), PLAY_REACHED_25_PERCENT, env) else s
  }

  /** The second milestone block of `maybeSentPlayerReachedEvent`. */
  function ReachHalf(s: State, env: Env): State {
    if !s.playReached50 && ProgressAtLeast(env.player.position, env.player.duration, 2)
    then Emit(s.(playReached50 := true), PLAY_REACHED_50_PERCENT, env) else s
  }

  /** The third milestone block of `maybeSentPlayerReachedEvent`. */
  function ReachThreeQuarters(s: State, env: Env): State {
    if !s.playReached75 && ProgressAtLeast(env.player.position, env.player.duration, 3)
    then Emit(s.(playReached75 := true), PLAY_REACHED_75_PERCENT, env) else s
  }

  /** Quartile `q` (1, 2 or 3) has been crossed at the player's current position. */
  predicate Crossed(p: PlayerInfo, q: int) {
    !p.isLive && !ProgressBelow(p.position, p.duration, 1) &&
    (q == 1 || ProgressAtLeast(p.position, p.duration, q))
  }

  /** The milestone event of quartile `q` if it is newly reached, as a list of at most one event. */
  function NewlyReachedAt(reached: bool, p: PlayerInfo, q: int, e: KavaEvent): seq<KavaEvent> {
    if !reached && Crossed(p, q) then [e] else []
  }

  /** The milestone events not yet sent whose quartile has been crossed, lowest first. */
  function NewlyReached(s: State, p: PlayerInfo): seq<KavaEvent> {
    NewlyReachedAt(s.playReached25, p, 1, PLAY_REACHED_25_PERCENT) +
    NewlyReachedAt(s.playReached50, p, 2, PLAY_REACHED_50_PERCENT) +
    NewlyReachedAt(s.playReached75, p, 3, PLAY_REACHED_75_PERCENT)
  }

  /** Past the first quartile, the 25% milestone is marked, and announced if it was not yet. */
  lemma ReachQuarterEffect(s: State, env: Env)
    ensures var r := ReachQuarter(s, env);
      && r == s.(playReached25 := true, sent := r.sent, beacons := r.beacons, eventIndex := r.eventIndex)
      && var es := if s.playReached25 then [] else [PLAY_REACHED_25_PERCENT];
         && r.sent == s.sent + Out(s, es) && r.eventIndex == s.eventIndex + |Out(s, es)|
         && r.beacons == s.beacons +
              if s.playReached25 then [] else Queued(s.(playReached25 := true), PLAY_REACHED_25_PERCENT, env)
  {
    if !s.playReached25 {
      EmitEffect(s.(playReached25 := true), PLAY_REACHED_25_PERCENT, env);
    } else {
      assert ReachQuarter(s, env) == s;
    }
  }

  /** At half way, the 50% milestone is marked, and announced if it was not yet. */
  lemma ReachHalfEffect(s: State, env: Env)
    ensures var r := ReachHalf(s, env); var p := env.player;
      && r == s.(playReached50 := r.playReached50, sent := r.sent, beacons := r.beacons, eventIndex := r.eventIndex)
      && r.playReached50 == (s.playReached50 || ProgressAtLeast(p.position, p.duration, 2))
      && var due := !s.playReached50 && ProgressAtLeast(p.position, p.duration, 2);
         && r.sent == s.sent + Out(s, if due then [PLAY_REACHED_50_PERCENT] else [])
         && r.eventIndex == s.eventIndex + |Out(s, if due then [PLAY_REACHED_50_PERCENT] else [])|
         && r.beacons == s.beacons +
              if due then Queued(s.(playReached50 := true), PLAY_REACHED_50_PERCENT, env) else []
  {
    var p := env.player;
    if !s.playReached50 && ProgressAtLeast(p.position, p.duration, 2) {
      EmitEffect(s.(playReached50 := true), PLAY_REACHED_50_PERCENT, env);
    } else {
      assert ReachHalf(s, env) == s;
    }
  }

  /** At three quarters, the 75% milestone is marked, and announced if it was not yet. */
  lemma ReachThreeQuartersEffect(s: State, env: Env)
    ensures var r := ReachThreeQuarters(s, env); var p := env.player;
      && r == s.(playReached75 := r.playReached75, sent := r.sent, beacons := r.beacons, eventIndex := r.eventIndex)
      && r.playReached75 == (s.playReached75 || ProgressAtLeast(p.position, p.duration, 3))
      && var due := !s.playReached75 && ProgressAtLeast(p.position, p.duration, 3);
         && r.sent == s.sent + Out(s, if due then [PLAY_REACHED_75_PERCENT] else [])
         && r.eventIndex == s.eventIndex + |Out(s, if due then [PLAY_REACHED_75_PERCENT] else [])|
         && r.beacons == s.beacons +
              if due then Queued(s.(playReached75 := true), PLAY_REACHED_75_PERCENT, env) else []
  {
    var p := env.player;
    if !s.playReached75 && ProgressAtLeast(p.position, p.duration, 3) {
      EmitEffect(s.(playReached75 := true), PLAY_REACHED_75_PERCENT, env);
    } else {
      assert ReachThreeQuarters(s, env) == s;
    }
  }

  /**
   * A milestone flag is set once its quartile is crossed and is never cleared here; no other
   * field than the flags, the beacons sent and the event index changes.
   */
  lemma MaybeSendPlayerReachedEventEffect(s: State, env: Env)
    ensures var r := MaybeSendPlayerReachedEvent(s, env);
      && r.playReached25 == (s.playReached25 || Crossed(env.player, 1))
      && r.playReached50 == (s.playReached50 || Crossed(env.player, 2))
      && r.playReached75 == (s.playReached75 || Crossed(env.player, 3))
      && r.playReached100 == s.playReached100 && r.isAutoPlay == s.isAutoPlay
      && r.isImpressionSent == s.isImpressionSent && r.isEnded == s.isEnded
      && r.isPaused == s.isPaused && r.isFirstPlay == s.isFirstPlay
      && r.errorCode == s.errorCode && r.viewEventTimeCounter == s.viewEventTimeCounter
      && r.actualBitrate == s.actualBitrate && r.joinTimeStartTimestamp == s.joinTimeStartTimestamp
      && r.totalBufferTimePerEntry == s.totalBufferTimePerEntry
      && r.lastKnownBufferingTimestamp == s.lastKnownBufferingTimestamp
      && r.totalBufferTimePerViewEvent == s.totalBufferTimePerViewEvent
      && r.targetSeekPositionInSeconds == s.targetSeekPositionInSeconds
      && r.referrer == s.referrer && r.deliveryType == s.deliveryType
      && r.sessionStartTime == s.sessionStartTime && r.currentAudioLanguage == s.currentAudioLanguage
      && r.currentCaptionLanguage == s.currentCaptionLanguage && r.timerRunning == s.timerRunning
      && r.config == s.config && r.media == s.media
  {
    var p := env.player;
    if p.isLive || ProgressBelow(p.position, p.duration, 1) {
      assert MaybeSendPlayerReachedEvent(s, env) == s;
    } else {
      var s1 := ReachQuarter(s, env);
      ReachQuarterEffect(s, env);
      var s2 := ReachHalf(s1, env);
      ReachHalfEffect(s1, env);
      ReachThreeQuartersEffect(s2, env);
      assert MaybeSendPlayerReachedEvent(s, env) == ReachThreeQuarters(s2, env);
    }
  }

  /** What each milestone block logs once the first quartile is crossed, and what it keeps. */
  lemma ReachLogs(s: State, env: Env)
    requires Crossed(env.player, 1)
    ensures var r := ReachQuarter(s, env);
      var a := NewlyReachedAt(s.playReached25, env.player, 1, PLAY_REACHED_25_PERCENT);
      && r.sent == s.sent + Out(s, a) && r.eventIndex == s.eventIndex + |Out(s, a)|
      && r.playReached50 == s.playReached50 && r.playReached75 == s.playReached75
      && CanSend(r) == CanSend(s)
    ensures var r := ReachHalf(s, env);
      var b := NewlyReachedAt(s.playReached50, env.player, 2, PLAY_REACHED_50_PERCENT);
      && r.sent == s.sent + Out(s, b) && r.eventIndex == s.eventIndex + |Out(s, b)|
      && r.playReached75 == s.playReached75 && CanSend(r) == CanSend(s)
    ensures var r := ReachThreeQuarters(s, env);
      var c := NewlyReachedAt(s.playReached75, env.player, 3, PLAY_REACHED_75_PERCENT);
      r.sent == s.sent + Out(s, c) && r.eventIndex == s.eventIndex + |Out(s, c)|
  {
    ReachQuarterEffect(s, env);
    ReachHalfEffect(s, env);
    ReachThreeQuartersEffect(s, env);
  }

  /** The beacons sent are the newly reached milestones, lowest first. */
  lemma MaybeSendPlayerReachedEventSends(s: State, env: Env)
    ensures var r := MaybeSendPlayerReachedEvent(s, env);
      && r.sent == s.sent + Out(s, NewlyReached(s, env.player))
      && r.eventIndex == s.eventIndex + |Out(s, NewlyReached(s, env.player))|
  {
    var p := env.player;
    var a := NewlyReachedAt(s.playReached25, p, 1, PLAY_REACHED_25_PERCENT);
    var b := NewlyReachedAt(s.playReached50, p, 2, PLAY_REACHED_50_PERCENT);
    var c := NewlyReachedAt(s.playReached75, p, 3, PLAY_REACHED_75_PERCENT);
    if p.isLive || ProgressBelow(p.position, p.duration, 1) {
      assert MaybeSendPlayerReachedEvent(s, env) == s;
      assert a == [] && b == [] && c == [];
      assert NewlyReached(s, p) == [];
    } else {
      var s1 := ReachQuarter(s, env);
      var s2 := ReachHalf(s1, env);
      ReachLogs(s, env);
      ReachLogs(s1, env);
      ReachLogs(s2, env);
      assert MaybeSendPlayerReachedEvent(s, env) == ReachThreeQuarters(s2, env);
      AppendOut(s, s.sent, a, b);
      AppendOut(s, s.sent, a + b, c);
    }
  }

  /** A send keeps the queue in step with the log. */
  lemma EmitKeeps(s: State, e: KavaEvent, env: Env)
    ensures QueueKept(s, Emit(s, e, env))
  {
    EmitEffect(s, e, env);
  }

  /** Each milestone block keeps the queue in step with the log. */
  lemma ReachKeeps(s: State, env: Env)
    ensures QueueKept(s, ReachQuarter(s, env))
    ensures QueueKept(s, ReachHalf(s, env))
    ensures QueueKept(s, ReachThreeQuarters(s, env))
  {
    EmitKeeps(s.(playReached25 := true), PLAY_REACHED_25_PERCENT, env);
    EmitKeeps(s.(playReached50 := true), PLAY_REACHED_50_PERCENT, env);
    EmitKeeps(s.(playReached75 := true), PLAY_REACHED_75_PERCENT, env);
  }

  /** The milestones keep the queue in step with the log. */
  lemma MaybeSendPlayerReachedEventKeeps(s: State, env: Env)
    ensures QueueKept(s, MaybeSendPlayerReachedEvent(s, env))
  {
    var p := env.player;
    if !(p.isLive || ProgressBelow(p.position, p.duration, 1)) {
      var s1 := ReachQuarter(s, env);
      var s2 := ReachHalf(s1, env);
      ReachKeeps(s, env);
      ReachKeeps(s1, env);
      ReachKeeps(s2, env);
      QueueKeptTrans(s, s1, s2);
      QueueKeptTrans(s, s2, ReachThreeQuarters(s2, env));
    }
  }

  /** One tick of the view timer (the timer task's `run`): nothing happens while paused. */
  function OnTimerTick(s: State, env: Env): State {
    if s.isPaused then s else MaybeSendPlayerReachedEvent(MaybeSendViewEvent(s, env), env)
  }

  /** A tick sends the due VIEW first, then the newly reached milestones. */
  lemma OnTimerTickEffect(s: State, env: Env)
    ensures var r := OnTimerTick(s, env);
      && (s.isPaused ==> r == s)
      && r.isPaused == s.isPaused && r.timerRunning == s.timerRunning
      && r.isFirstPlay == s.isFirstPlay && r.isImpressionSent == s.isImpressionSent
      && r.playReached100 == s.playReached100 && r.media == s.media && r.config == s.config
      && r.actualBitrate == s.actualBitrate && r.sessionStartTime == s.sessionStartTime
      && r.lastKnownBufferingTimestamp == s.lastKnownBufferingTimestamp
      && r.totalBufferTimePerEntry == s.totalBufferTimePerEntry
      && r.viewEventTimeCounter ==
           (if s.isPaused then s.viewEventTimeCounter
            else if ViewDue(s.viewEventTimeCounter) then 0
            else s.viewEventTimeCounter + OneSecondInMs)
  {
    if s.isPaused {
      assert OnTimerTick(s, env) == s;
    } else {
      var v := MaybeSendViewEvent(s, env);
      MaybeSendViewEventEffect(s, env);
      MaybeSendPlayerReachedEventEffect(v, env);
      assert OnTimerTick(s, env) == MaybeSendPlayerReachedEvent(v, env);
    }
  }

  /** A tick that is not paused sends the due VIEW first, then the newly reached milestones. */
  lemma OnTimerTickSends(s: State, env: Env)
    requires !s.isPaused
    ensures var r := OnTimerTick(s, env);
      var es := (if ViewDue(s.viewEventTimeCounter) then [VIEW] else []) + NewlyReached(s, env.player);
      && r.sent == s.sent + Out(s, es) && r.eventIndex == s.eventIndex + |Out(s, es)|
  {
    var v := MaybeSendViewEvent(s, env);
    MaybeSendViewEventEffect(s, env);
    MaybeSendPlayerReachedEventSends(v, env);
    assert OnTimerTick(s, env) == MaybeSendPlayerReachedEvent(v, env);
    var view := if ViewDue(s.viewEventTimeCounter) then [VIEW] else [];
    assert CanSend(v) == CanSend(s);
    assert NewlyReached(v, env.player) == NewlyReached(s, env.player);
    AppendOut(s, s.sent, view, NewlyReached(s, env.player));
  }

  /** A tick keeps the queue in step with the log. */
  lemma OnTimerTickKeeps(s: State, env: Env)
    ensures QueueKept(s, OnTimerTick(s, env))
  {
    if !s.isPaused {
      var v := MaybeSendViewEvent(s, env);
      MaybeSendViewEventEffect(s, env);
      MaybeSendPlayerReachedEventKeeps(v, env);
      QueueKeptTrans(s, v, MaybeSendPlayerReachedEvent(v, env));
    }
  }

  // ---------------------------------------------------------------------------------------
  // Player events

  /** `LOADED_METADATA`. */
  function OnLoadedMetadata(s: State, env: Env): State {
    if s.isImpressionSent then s
    else SendPendingPlayRequest(Emit(StartAnalyticsTimer(s), IMPRESSION, env), env).(isImpressionSent := true)
  }

  /** The autoplay block of `LOADED_METADATA`: a play requested before the impression is announced. */
  function SendPendingPlayRequest(s: State, env: Env): State {
    if s.isAutoPlay then Emit(s, PLAY_REQUEST, env).(isAutoPlay := false) else s
  }

  lemma SendPendingPlayRequestEffect(s: State, env: Env)
    ensures var r := SendPendingPlayRequest(s, env);
      && r == s.(isAutoPlay := false, sent := r.sent, beacons := r.beacons, eventIndex := r.eventIndex)
      && var es := if s.isAutoPlay then [PLAY_REQUEST] else [];
         && r.sent == s.sent + Out(s, es) && r.eventIndex == s.eventIndex + |Out(s, es)|
         && r.beacons == s.beacons + if s.isAutoPlay then Queued(s, PLAY_REQUEST, env) else []
  {
    if s.isAutoPlay {
      EmitEffect(s, PLAY_REQUEST, env);
    } else {
      assert SendPendingPlayRequest(s, env) == s;
    }
  }

  /**
   * The impression goes out once and the timer starts with it; a play requested before it is
   * then announced. Nothing else changes.
   */
  lemma OnLoadedMetadataEffect(s: State, env: Env)
    ensures var r := OnLoadedMetadata(s, env);
      && (s.isImpressionSent ==> r == s)
      && r.isImpressionSent
      && r.isAutoPlay == (s.isImpressionSent && s.isAutoPlay)
      && r.timerRunning == (s.isImpressionSent ==> s.timerRunning)
      && r.viewEventTimeCounter == (if !s.isImpressionSent && s.timerRunning then 0 else s.viewEventTimeCounter)
      && r.playReached25 == s.playReached25 && r.playReached50 == s.playReached50
      && r.playReached75 == s.playReached75 && r.playReached100 == s.playReached100
      && r.isEnded == s.isEnded && r.isPaused == s.isPaused && r.isFirstPlay == s.isFirstPlay
      && r.errorCode == s.errorCode
      && r.actualBitrate == s.actualBitrate && r.joinTimeStartTimestamp == s.joinTimeStartTimestamp
      && r.totalBufferTimePerEntry == s.totalBufferTimePerEntry
      && r.lastKnownBufferingTimestamp == s.lastKnownBufferingTimestamp
      && r.totalBufferTimePerViewEvent == s.totalBufferTimePerViewEvent
      && r.targetSeekPositionInSeconds == s.targetSeekPositionInSeconds
      && r.referrer == s.referrer && r.deliveryType == s.deliveryType
      && r.sessionStartTime == s.sessionStartTime && r.currentAudioLanguage == s.currentAudioLanguage
      && r.currentCaptionLanguage == s.currentCaptionLanguage
      && r.config == s.config && r.media == s.media
  {
    if s.isImpressionSent {
      assert OnLoadedMetadata(s, env) == s;
    } else {
      var t := StartAnalyticsTimer(s);
      StartAnalyticsTimerEffect(s);
      var t1 := Emit(t, IMPRESSION, env);
      EmitEffect(t, IMPRESSION, env);
      SendPendingPlayRequestEffect(t1, env);
      assert OnLoadedMetadata(s, env) == SendPendingPlayRequest(t1, env).(isImpressionSent := true);
    }
  }

  /** The first metadata sends the impression, then the PLAY_REQUEST that was waiting for it. */
  lemma OnLoadedMetadataSends(s: State, env: Env)
    ensures var r := OnLoadedMetadata(s, env);
      var es := if s.isImpressionSent then [] else if s.isAutoPlay then [IMPRESSION, PLAY_REQUEST] else [IMPRESSION];
      && r.sent == s.sent + Out(s, es) && r.eventIndex == s.eventIndex + |Out(s, es)|
  {
    if s.isImpressionSent {
      assert OnLoadedMetadata(s, env) == s;
    } else {
      var t := StartAnalyticsTimer(s);
      StartAnalyticsTimerEffect(s);
      var t1 := Emit(t, IMPRESSION, env);
      EmitEffect(t, IMPRESSION, env);
      SendPendingPlayRequestEffect(t1, env);
      assert OnLoadedMetadata(s, env) == SendPendingPlayRequest(t1, env).(isImpressionSent := true);
      AppendOut(s, s.sent, [IMPRESSION], if s.isAutoPlay then [PLAY_REQUEST] else []);
      assert [IMPRESSION] + [PLAY_REQUEST] == [IMPRESSION, PLAY_REQUEST];
    }
  }

  /** The first metadata keeps the queue in step with the log. */
  lemma OnLoadedMetadataKeeps(s: State, env: Env)
    ensures QueueKept(s, OnLoadedMetadata(s, env))
  {
    if !s.isImpressionSent {
      var t := StartAnalyticsTimer(s);
      StartAnalyticsTimerEffect(s);
      var t1 := Emit(t, IMPRESSION, env);
      EmitKeeps(t, IMPRESSION, env);
      var t2 := SendPendingPlayRequest(t1, env);
      if t1.isAutoPlay {
        EmitKeeps(t1, PLAY_REQUEST, env);
      }
      QueueKeptTrans(s, t1, t2);
      assert OnLoadedMetadata(s, env) == t2.(isImpressionSent := true);
    }
  }

  /** `PLAY`. */
  function OnPlay(s: State, env: Env): State {
    var s := if s.isFirstPlay then s.(joinTimeStartTimestamp := env.now) else s;
    if s.isImpressionSent then Emit(s, PLAY_REQUEST, env) else s.(isAutoPlay := true)
  }

  /**
   * The first play of a media starts the join-time clock; before the impression the request
   * is remembered as autoplay, after it a PLAY_REQUEST goes out.
   */
  lemma OnPlayEffect(s: State, env: Env)
    ensures var r := OnPlay(s, env);
      && r == s.(joinTimeStartTimestamp := r.joinTimeStartTimestamp, isAutoPlay := r.isAutoPlay,
                 sent := r.sent, beacons := r.beacons, eventIndex := r.eventIndex)
      && r.joinTimeStartTimestamp == (if s.isFirstPlay then env.now else s.joinTimeStartTimestamp)
      && r.isAutoPlay == (s.isAutoPlay || !s.isImpressionSent)
      && var es := if s.isImpressionSent then [PLAY_REQUEST] else [];
         && r.sent == s.sent + Out(s, es) && r.eventIndex == s.eventIndex + |Out(s, es)|
         && r.beacons == s.beacons +
              if s.isImpressionSent then Queued(s.(joinTimeStartTimestamp := r.joinTimeStartTimestamp), PLAY_REQUEST, env)
              else []
  {
    EmitEffect(if s.isFirstPlay then s.(joinTimeStartTimestamp := env.now) else s, PLAY_REQUEST, env);
  }

  /** `PAUSE`. */
  function OnPause(s: State, env: Env): State {
    Emit(s.(isPaused := true), PAUSE, env)
  }

  lemma OnPauseEffect(s: State, env: Env)
    ensures var r := OnPause(s, env);
      && r == s.(isPaused := true, sent := r.sent, beacons := r.beacons, eventIndex := r.eventIndex)
      && r.sent == s.sent + Out(s, [PAUSE]) && r.eventIndex == s.eventIndex + |Out(s, [PAUSE])|
      && r.beacons == s.beacons + Queued(s.(isPaused := true), PAUSE, env)
  {
    EmitEffect(s.(isPaused := true), PAUSE, env);
  }

  /** `PLAYING`. */
  function OnPlaying(s: State, env: Env): State {
    var s := if s.isFirstPlay then Emit(s.(isFirstPlay := false), PLAY, env)
             else if s.isPaused && !s.isEnded then Emit(s, RESUME, env)
             else s;
    s.(isEnded := false, isPaused := false)
  }

  /**
   * The first PLAYING of a media is the PLAY; a later one resumes a pause, unless playback had
   * ended (a replay starts playing without a RESUME).
   */
  lemma OnPlayingEffect(s: State, env: Env)
    ensures var r := OnPlaying(s, env);
      && r == s.(isFirstPlay := false, isEnded := false, isPaused := false,
                 sent := r.sent, beacons := r.beacons, eventIndex := r.eventIndex)
      && var es := if s.isFirstPlay then [PLAY] else if s.isPaused && !s.isEnded then [RESUME] else [];
         && r.sent == s.sent + Out(s, es) && r.eventIndex == s.eventIndex + |Out(s, es)|
         && r.beacons == s.beacons +
              if s.isFirstPlay then Queued(s.(isFirstPlay := false), PLAY, env)
              else if s.isPaused && !s.isEnded then Queued(s, RESUME, env) else []
  {
    EmitEffect(s.(isFirstPlay := false), PLAY, env);
    EmitEffect(s, RESUME, env);
  }

  /** Milliseconds to whole seconds with Java's `long` division, which truncates toward zero. */
  function WholeSeconds(ms: int): (sec: int)
    ensures ms >= 0 ==> 0 <= 1000 * sec <= ms < 1000 * sec + 1000
    ensures ms < 0 ==> 1000 * sec - 1000 < ms <= 1000 * sec <= 0
  {
    if ms >= 0 then ms / MillisecondsMultiplier else -((-ms) / MillisecondsMultiplier)
  }

  /** `SEEKING`. */
  function OnSeeking(s: State, targetPosition: int, env: Env): State {
    Emit(s.(targetSeekPositionInSeconds := WholeSeconds(targetPosition)), SEEK, env)
  }

  /** The target is kept in whole seconds and a SEEK goes out. */
  lemma OnSeekingEffect(s: State, targetPosition: int, env: Env)
    ensures var r := OnSeeking(s, targetPosition, env);
      && r == s.(targetSeekPositionInSeconds := WholeSeconds(targetPosition),
                 sent := r.sent, beacons := r.beacons, eventIndex := r.eventIndex)
      && r.sent == s.sent + Out(s, [SEEK]) && r.eventIndex == s.eventIndex + |Out(s, [SEEK])|
      && r.beacons == s.beacons + Queued(s.(targetSeekPositionInSeconds := WholeSeconds(targetPosition)), SEEK, env)
  {
    EmitEffect(s.(targetSeekPositionInSeconds := WholeSeconds(targetPosition)), SEEK, env);
  }

  /** `REPLAY`. */
  function OnReplay(s: State, env: Env): State {
    Emit(s, REPLAY, env)
  }

  /** `SOURCE_SELECTED` (`updateDeliveryType`): only the delivery type changes; nothing is sent. */
  function UpdateDeliveryType(s: State, format: MediaFormat): State {
    s.(deliveryType := Some(DeliveryTypeOf(format)))
  }

  /** `ENDED`. */
  function OnEnded(s: State, env: Env): State {
    ReachEnd(MaybeSendPlayerReachedEvent(s, env), env).(isEnded := true, isPaused := true)
  }

  /** The 100% milestone block of `ENDED`. */
  function ReachEnd(s: State, env: Env): State {
    if !s.playReached100 then Emit(s.(playReached100 := true), PLAY_REACHED_100_PERCENT, env) else s
  }

  /** The 100% milestone is marked, and announced if it was not yet. */
  lemma ReachEndEffect(s: State, env: Env)
    ensures var r := ReachEnd(s, env);
      && r == s.(playReached100 := true, sent := r.sent, beacons := r.beacons, eventIndex := r.eventIndex)
      && var es := if s.playReached100 then [] else [PLAY_REACHED_100_PERCENT];
         && r.sent == s.sent + Out(s, es) && r.eventIndex == s.eventIndex + |Out(s, es)|
         && r.beacons == s.beacons +
              if s.playReached100 then [] else Queued(s.(playReached100 := true), PLAY_REACHED_100_PERCENT, env)
  {
    if !s.playReached100 {
      EmitEffect(s.(playReached100 := true), PLAY_REACHED_100_PERCENT, env);
    } else {
      assert ReachEnd(s, env) == s;
    }
  }

  /**
   * The quartile milestones are brought up to date, the 100% milestone is marked, and playback
   * counts as ended and paused; nothing else changes but the beacons sent.
   */
  lemma OnEndedEffect(s: State, env: Env)
    ensures var r := OnEnded(s, env);
      && r.playReached25 == (s.playReached25 || Crossed(env.player, 1))
      && r.playReached50 == (s.playReached50 || Crossed(env.player, 2))
      && r.playReached75 == (s.playReached75 || Crossed(env.player, 3))
      && r.playReached100 && r.isEnded && r.isPaused
      && r.isAutoPlay == s.isAutoPlay && r.isImpressionSent == s.isImpressionSent
      && r.isFirstPlay == s.isFirstPlay && r.timerRunning == s.timerRunning
      && r.errorCode == s.errorCode && r.viewEventTimeCounter == s.viewEventTimeCounter
      && r.actualBitrate == s.actualBitrate && r.joinTimeStartTimestamp == s.joinTimeStartTimestamp
      && r.totalBufferTimePerEntry == s.totalBufferTimePerEntry
      && r.lastKnownBufferingTimestamp == s.lastKnownBufferingTimestamp
      && r.totalBufferTimePerViewEvent == s.totalBufferTimePerViewEvent
      && r.targetSeekPositionInSeconds == s.targetSeekPositionInSeconds
      && r.referrer == s.referrer && r.deliveryType == s.deliveryType
      && r.sessionStartTime == s.sessionStartTime && r.currentAudioLanguage == s.currentAudioLanguage
      && r.currentCaptionLanguage == s.currentCaptionLanguage
      && r.config == s.config && r.media == s.media
  {
    var t := MaybeSendPlayerReachedEvent(s, env);
    MaybeSendPlayerReachedEventEffect(s, env);
    ReachEndEffect(t, env);
  }

  /** The newly reached quartile milestones go out first, then the 100% milestone, once. */
  lemma OnEndedSends(s: State, env: Env)
    ensures var r := OnEnded(s, env);
      var es := NewlyReached(s, env.player) + if s.playReached100 then [] else [PLAY_REACHED_100_PERCENT];
      && r.sent == s.sent + Out(s, es) && r.eventIndex == s.eventIndex + |Out(s, es)|
  {
    var t := MaybeSendPlayerReachedEvent(s, env);
    MaybeSendPlayerReachedEventEffect(s, env);
    MaybeSendPlayerReachedEventSends(s, env);
    ReachEndEffect(t, env);
    AppendOut(s, s.sent, NewlyReached(s, env.player),
              if s.playReached100 then [] else [PLAY_REACHED_100_PERCENT]);
  }

  /** The end of playback keeps the queue in step with the log. */
  lemma OnEndedKeeps(s: State, env: Env)
    ensures QueueKept(s, OnEnded(s, env))
  {
    var t := MaybeSendPlayerReachedEvent(s, env);
    MaybeSendPlayerReachedEventKeeps(s, env);
    var u := ReachEnd(t, env);
    if !t.playReached100 {
      EmitKeeps(t.(playReached100 := true), PLAY_REACHED_100_PERCENT, env);
    }
    QueueKeptTrans(s, t, u);
    assert OnEnded(s, env) == u.(isEnded := true, isPaused := true);
  }

  /** `PLAYBACK_INFO_UPDATED`. */
  function OnPlaybackInfoUpdated(s: State, videoBitrate: int, env: Env): State {
    if s.actualBitrate != videoBitrate then Emit(s.(actualBitrate := videoBitrate), FLAVOR_SWITCHED, env)
    else s
  }

  /** A FLAVOR_SWITCHED goes out only when the bitrate changes. */
  lemma OnPlaybackInfoUpdatedEffect(s: State, videoBitrate: int, env: Env)
    ensures var r := OnPlaybackInfoUpdated(s, videoBitrate, env);
      && r == s.(actualBitrate := videoBitrate, sent := r.sent, beacons := r.beacons, eventIndex := r.eventIndex)
      && var es := if s.actualBitrate != videoBitrate then [FLAVOR_SWITCHED] else [];
         && r.sent == s.sent + Out(s, es) && r.eventIndex == s.eventIndex + |Out(s, es)|
         && r.beacons == s.beacons +
              if s.actualBitrate != videoBitrate then Queued(s.(actualBitrate := videoBitrate), FLAVOR_SWITCHED, env)
              else []
  {
    if s.actualBitrate != videoBitrate {
      EmitEffect(s.(actualBitrate := videoBitrate), FLAVOR_SWITCHED, env);
    } else {
      assert OnPlaybackInfoUpdated(s, videoBitrate, env) == s;
    }
  }

  /** `VIDEO_TRACK_CHANGED`: the new track's bitrate is reported with a SOURCE_SELECTED. */
  function OnVideoTrackChanged(s: State, bitrate: int, env: Env): State {
    Emit(s.(actualBitrate := bitrate), SOURCE_SELECTED, env)
  }

  /** `AUDIO_TRACK_CHANGED`: the new language is reported with an AUDIO_SELECTED. */
  function OnAudioTrackChanged(s: State, language: Option<string>, env: Env): State {
    Emit(s.(currentAudioLanguage := language), AUDIO_SELECTED, env)
  }

  /** `TEXT_TRACK_CHANGED`: the new language is reported with a CAPTIONS. */
  function OnTextTrackChanged(s: State, language: Option<string>, env: Env): State {
    Emit(s.(currentCaptionLanguage := language), CAPTIONS, env)
  }

  /** The numeric code of an error: player and ad errors carry one, other errors none. */
  function ErrorCodeOf(t: ErrorType): (c: int)
    ensures t.PlayerError? ==> c == t.playerCode
    ensures t.AdError? ==> c == t.adCode
    ensures t.OtherError? ==> c == NoErrorCode
  {
    match t
    case PlayerError(code) => code
    case AdError(code) => code
    case OtherError => NoErrorCode
  }

  /** `ERROR`. */
  function OnError(s: State, t: ErrorType, env: Env): State {
    Emit(s.(errorCode := ErrorCodeOf(t)), ERROR, env)
  }

  /** The error's code is stored and an ERROR beacon goes out, consuming it. */
  lemma OnErrorEffect(s: State, t: ErrorType, env: Env)
    ensures var r := OnError(s, t, env);
      && r == s.(errorCode := r.errorCode, sent := r.sent, beacons := r.beacons, eventIndex := r.eventIndex)
      && r.errorCode == (if CanSend(s) then NoErrorCode else ErrorCodeOf(t))
      && r.sent == s.sent + Out(s, [ERROR]) && r.eventIndex == s.eventIndex + |Out(s, [ERROR])|
      && r.beacons == s.beacons + Queued(s.(errorCode := ErrorCodeOf(t)), ERROR, env)
  {
    EmitEffect(s.(errorCode := ErrorCodeOf(t)), ERROR, env);
  }

  /**
   * `calculateTotalBufferTimePerViewEvent` at time `now`: the time since the last buffering
   * mark is added to both totals and the mark moves to `now`. A mark of 0 means none.
   */
  function CalculateTotalBufferTimePerViewEvent(s: State, now: int): State {
    if s.lastKnownBufferingTimestamp == 0 then s
    else
      var bufferTime := now - s.lastKnownBufferingTimestamp;
      s.(totalBufferTimePerViewEvent := s.totalBufferTimePerViewEvent + bufferTime,
         totalBufferTimePerEntry := s.totalBufferTimePerEntry + bufferTime,
         lastKnownBufferingTimestamp := now)
  }

  /** `handleStateChanged`. */
  function HandleStateChanged(s: State, newState: PlayerState, env: Env): State {
    match newState
    case Buffering => if s.isImpressionSent then s.(lastKnownBufferingTimestamp := env.now) else s
    case Ready => CalculateTotalBufferTimePerViewEvent(s, env.now)
    case OtherState => s
  }

  /**
   * A READY after a buffering mark adds the time since the mark to both totals and moves the
   * mark to now; without a mark nothing changes.
   */
  lemma CalculateTotalBufferTimePerViewEventEffect(s: State, now: int)
    ensures var r := CalculateTotalBufferTimePerViewEvent(s, now);
      && r == s.(totalBufferTimePerViewEvent := r.totalBufferTimePerViewEvent,
                 totalBufferTimePerEntry := r.totalBufferTimePerEntry,
                 lastKnownBufferingTimestamp := r.lastKnownBufferingTimestamp)
      && (s.lastKnownBufferingTimestamp != 0 ==>
            && r.totalBufferTimePerViewEvent == s.totalBufferTimePerViewEvent + (now - s.lastKnownBufferingTimestamp)
            && r.totalBufferTimePerEntry == s.totalBufferTimePerEntry + (now - s.lastKnownBufferingTimestamp)
            && r.lastKnownBufferingTimestamp == now)
      && (s.lastKnownBufferingTimestamp == 0 ==> r == s)
  {
    if s.lastKnownBufferingTimestamp != 0 {
      var bufferTime := now - s.lastKnownBufferingTimestamp;
      assert CalculateTotalBufferTimePerViewEvent(s, now)
          == s.(totalBufferTimePerViewEvent := s.totalBufferTimePerViewEvent + bufferTime,
                totalBufferTimePerEntry := s.totalBufferTimePerEntry + bufferTime,
                lastKnownBufferingTimestamp := now);
    } else {
      assert CalculateTotalBufferTimePerViewEvent(s, now) == s;
    }
  }

  /**
   * Buffering is timed only between a BUFFERING after the impression and the next READY; no
   * other player state touches the buffering fields, and nothing else changes.
   */
  lemma HandleStateChangedEffect(s: State, newState: PlayerState, env: Env)
    ensures var r := HandleStateChanged(s, newState, env);
      && r == s.(totalBufferTimePerViewEvent := r.totalBufferTimePerViewEvent,
                 totalBufferTimePerEntry := r.totalBufferTimePerEntry,
                 lastKnownBufferingTimestamp := r.lastKnownBufferingTimestamp)
      && (newState == Buffering ==>
            && r.lastKnownBufferingTimestamp == (if s.isImpressionSent then env.now else s.lastKnownBufferingTimestamp)
            && r.totalBufferTimePerEntry == s.totalBufferTimePerEntry
            && r.totalBufferTimePerViewEvent == s.totalBufferTimePerViewEvent)
      && (newState == Ready ==> r == CalculateTotalBufferTimePerViewEvent(s, env.now))
      && (newState == OtherState ==> r == s)
  {
    match newState
    case Buffering =>
      if s.isImpressionSent {
        assert HandleStateChanged(s, newState, env) == s.(lastKnownBufferingTimestamp := env.now);
      } else {
        assert HandleStateChanged(s, newState, env) == s;
      }
    case Ready =>
      CalculateTotalBufferTimePerViewEventEffect(s, env.now);
    case OtherState =>
      assert HandleStateChanged(s, newState, env) == s;
  }

  // ---------------------------------------------------------------------------------------
  // Host callbacks and responses

  /** `onApplicationPaused`: playback counts as paused and the timer stops. */
  function OnApplicationPaused(s: State): State {
    StopAnalyticsTimer(s.(isPaused := true))
  }

  /** The completion of a beacon request: the first session start time the server sends is kept. */
  function OnResponse(s: State, body: Option<string>): State {
    if s.sessionStartTime.None? && body.Some? then s.(sessionStartTime := body) else s
  }

  /** The session start time is written once; a missing response body writes nothing. */
  lemma OnResponseEffect(s: State, body: Option<string>)
    ensures var r := OnResponse(s, body);
      && (s.sessionStartTime.Some? ==> r == s)
      && (s.sessionStartTime.None? ==> r == s.(sessionStartTime := body))
  {
    if s.sessionStartTime.None? && body.Some? {
      assert OnResponse(s, body) == s.(sessionStartTime := body);
    } else {
      assert OnResponse(s, body) == s;
    }
  }

  /** The listener's switch on the player event. */
  function OnPlayerEvent(s: State, event: PlayerEvent, env: Env): State {
    match event
    case StateChanged(newState) => HandleStateChanged(s, newState, env)
    case LoadedMetadata => OnLoadedMetadata(s, env)
    case Play => OnPlay(s, env)
    case Pause => OnPause(s, env)
    case Playing => OnPlaying(s, env)
    case Seeking(target) => OnSeeking(s, target, env)
    case Replay => OnReplay(s, env)
    case SourceSelected(format) => UpdateDeliveryType(s, format)
    case Ended => OnEnded(s, env)
    case PlaybackInfoUpdated(bitrate) => OnPlaybackInfoUpdated(s, bitrate, env)
    case VideoTrackChanged(bitrate) => OnVideoTrackChanged(s, bitrate, env)
    case AudioTrackChanged(language) => OnAudioTrackChanged(s, language, env)
    case TextTrackChanged(language) => OnTextTrackChanged(s, language, env)
    case Error(t) => OnError(s, t, env)
    case OtherPlayerEvent => s
  }

  /** One input handled by the plugin. A tick can only arrive while the timer runs. */
  function Step(s: State, i: Input): State {
    match i.signal
    case UpdateMedia(media) => OnUpdateMedia(s, media)
    case UpdateConfig(config, defaultReferrer) => OnUpdateConfig(s, config, defaultReferrer)
    case PlayerSignal(event) => OnPlayerEvent(s, event, i.env)
    case TimerTick => if s.timerRunning then OnTimerTick(s, i.env) else s
    case ApplicationPaused => OnApplicationPaused(s)
    case ApplicationResumed => StartAnalyticsTimer(s)
    case Destroy => StopAnalyticsTimer(s)
    case Response(body) => OnResponse(s, body)
  }

  /** The inputs handled one after the other. */
  function Run(s: State, inputs: seq<Input>): State
    decreases |inputs|
  {
    if |inputs| == 0 then s else Run(Step(s, inputs[0]), inputs[1..])
  }
}
