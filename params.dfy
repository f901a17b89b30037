/** The parameters of one beacon: their names, their values and the order of their puts. */
module ParamMaps {
  import opened Options
  import opened LinkedMaps
  import opened Playback

  /**
   * A parameter value. Strings built by the JDK or the host library are kept symbolic:
   * `Decimal(n)` is `Integer.toString(n)` / `Long.toString(n)`, `Seconds(ms)` is
   * `Float.toString(ms / 1000f)`, `FloatOf(n)` is `Float.toString(n)`, `ClientTag`
   * is the host library's client tag and `FormatName(f)` is the host library's name of stream
   * format `f` (`FormatsHelper.StreamFormat.*.formatName`). `Null` is a Java null stored as a
   * value.
   */
  datatype ParamValue =
    | Text(s: string)
    | Null
    | Decimal(n: int)
    | Seconds(millis: int)
    | FloatOf(n: int)
    | ClientTag
    | FormatName(format: StreamFormat)

  /**
   * The parameter names the plugin puts, with their wire names given by `KeyName`, declared
   * in the order in which `gatherParams` and `addOptionalParams` put them.
   */
  datatype ParamKey =
    | Service | Action | EventType | PartnerId | EntryId | SessionId | EventIndex | Referrer
    | DeliveryType | PlaybackTypeKey | ClientVer | ClientTagKey | Position | SessionStartTime
    | BufferTime | BufferTimeSum | ActualBitrate | JoinTime | TargetPosition | Caption | Language
    | ErrorCode | PlaybackContext | CustomVar1 | CustomVar2 | CustomVar3 | Ks | UiConfId

  /** The parameter name as it appears in the request. */
  function KeyName(k: ParamKey): string {
    match k
    case Service => "service"
    case Action => "action"
    case EventType => "eventType"
    case PartnerId => "partnerId"
    case EntryId => "entryId"
    case SessionId => "sessionId"
    case EventIndex => "eventIndex"
    case Referrer => "referrer"
    case DeliveryType => "deliveryType"
    case PlaybackTypeKey => "playbackType"
    case ClientVer => "clientVer"
    case ClientTagKey => "clientTag"
    case Position => "position"
    case SessionStartTime => "sessionStartTime"
    case BufferTime => "bufferTime"
    case BufferTimeSum => "bufferTimeSum"
    case ActualBitrate => "actualBitrate"
    case JoinTime => "joinTime"
    case TargetPosition => "targetPosition"
    case Caption => "caption"
    case Language => "language"
    case ErrorCode => "errorCode"
    case PlaybackContext => "playbackContext"
    case CustomVar1 => "customVar1"
    case CustomVar2 => "customVar2"
    case CustomVar3 => "customVar3"
    case Ks => "ks"
    case UiConfId => "uiConfId"
  }

  /** The key a parameter name in a request stands for, if it is one of the plugin's. */
  function KeyOf(name: string): Option<ParamKey> {
    match name
    case "service" => Some(Service)
    case "action" => Some(Action)
    case "eventType" => Some(EventType)
    case "partnerId" => Some(PartnerId)
    case "entryId" => Some(EntryId)
    case "sessionId" => Some(SessionId)
    case "eventIndex" => Some(EventIndex)
    case "referrer" => Some(Referrer)
    case "deliveryType" => Some(DeliveryType)
    case "playbackType" => Some(PlaybackTypeKey)
    case "clientVer" => Some(ClientVer)
    case "clientTag" => Some(ClientTagKey)
    case "position" => Some(Position)
    case "sessionStartTime" => Some(SessionStartTime)
    case "bufferTime" => Some(BufferTime)
    case "bufferTimeSum" => Some(BufferTimeSum)
    case "actualBitrate" => Some(ActualBitrate)
    case "joinTime" => Some(JoinTime)
    case "targetPosition" => Some(TargetPosition)
    case "caption" => Some(Caption)
    case "language" => Some(Language)
    case "errorCode" => Some(ErrorCode)
    case "playbackContext" => Some(PlaybackContext)
    case "customVar1" => Some(CustomVar1)
    case "customVar2" => Some(CustomVar2)
    case "customVar3" => Some(CustomVar3)
    case "ks" => Some(Ks)
    case "uiConfId" => Some(UiConfId)
    case _ => None
  }

  /**
   * Each key is read back from its name, so no two keys share a name: a put of one key never
   * replaces the entry of another, as it could if two parameters had the same name.
   */
  lemma KeyNameInjective(j: ParamKey, k: ParamKey)
    ensures KeyOf(KeyName(k)) == Some(k)
    ensures KeyName(j) == KeyName(k) ==> j == k
  {
    KeyOfName(j);
    KeyOfName(k);
  }

  lemma KeyOfName(k: ParamKey)
    ensures KeyOf(KeyName(k)) == Some(k)
  {
    match k
    case Service => assert KeyOf("service") == Some(Service);
    case Action => assert KeyOf("action") == Some(Action);
    case EventType => assert KeyOf("eventType") == Some(EventType);
    case PartnerId => assert KeyOf("partnerId") == Some(PartnerId);
    case EntryId => assert KeyOf("entryId") == Some(EntryId);
    case SessionId => assert KeyOf("sessionId") == Some(SessionId);
    case EventIndex => assert KeyOf("eventIndex") == Some(EventIndex);
    case Referrer => assert KeyOf("referrer") == Some(Referrer);
    case DeliveryType => assert KeyOf("deliveryType") == Some(DeliveryType);
    case PlaybackTypeKey => assert KeyOf("playbackType") == Some(PlaybackTypeKey);
    case ClientVer => assert KeyOf("clientVer") == Some(ClientVer);
    case ClientTagKey => assert KeyOf("clientTag") == Some(ClientTagKey);
    case Position => assert KeyOf("position") == Some(Position);
    case SessionStartTime => assert KeyOf("sessionStartTime") == Some(SessionStartTime);
    case BufferTime => assert KeyOf("bufferTime") == Some(BufferTime);
    case BufferTimeSum => assert KeyOf("bufferTimeSum") == Some(BufferTimeSum);
    case ActualBitrate => assert KeyOf("actualBitrate") == Some(ActualBitrate);
    case JoinTime => assert KeyOf("joinTime") == Some(JoinTime);
    case TargetPosition => assert KeyOf("targetPosition") == Some(TargetPosition);
    case Caption => assert KeyOf("caption") == Some(Caption);
    case Language => assert KeyOf("language") == Some(Language);
    case ErrorCode => assert KeyOf("errorCode") == Some(ErrorCode);
    case PlaybackContext => assert KeyOf("playbackContext") == Some(PlaybackContext);
    case CustomVar1 => assert KeyOf("customVar1") == Some(CustomVar1);
    case CustomVar2 => assert KeyOf("customVar2") == Some(CustomVar2);
    case CustomVar3 => assert KeyOf("customVar3") == Some(CustomVar3);
    case Ks => assert KeyOf("ks") == Some(Ks);
    case UiConfId => assert KeyOf("uiConfId") == Some(UiConfId);
  }

  /** The keys the mandatory puts after the first seven may put. */
  predicate ContextKey(k: ParamKey) {
    k.Referrer? || k.DeliveryType? || k.PlaybackTypeKey? || k.ClientVer? || k.ClientTagKey?
    || k.Position? || k.SessionStartTime?
  }

  /** The keys the `switch (event)` of `gatherParams` may put. */
  predicate EventKey(k: ParamKey) {
    k.BufferTime? || k.BufferTimeSum? || k.ActualBitrate? || k.JoinTime? || k.TargetPosition?
    || k.Caption? || k.Language? || k.ErrorCode?
  }

  /** The keys `addOptionalParams` may put. */
  predicate OptionalKey(k: ParamKey) {
    k.PlaybackContext? || k.CustomVar1? || k.CustomVar2? || k.CustomVar3? || k.Ks? || k.UiConfId?
  }

  /** A beacon's `LinkedHashMap<String, String>`, keyed by parameter name. */
  type Params = LinkedMap<ParamKey, ParamValue>

  const EmptyParams: Params := Empty()

  /** A nullable Java string as a map value. */
  function OptText(o: Option<string>): (v: ParamValue)
    ensures o.None? <==> v == Null
    ensures o.Some? ==> v == Text(o.value)
  {
    match o
    case Some(s) => Text(s)
    case None => Null
  }

  /** A nullable string that is put only when present. */
  function TextIfPresent(o: Option<string>): (v: Option<ParamValue>)
    ensures o.None? <==> v.None?
    ensures o.Some? ==> v == Some(Text(o.value))
  {
    match o
    case Some(s) => Some(Text(s))
    case None => None
  }
}
