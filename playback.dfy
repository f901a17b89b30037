/**
 * Pure decisions the plugin takes over what the host player and the media descriptor report:
 * the playback type of a beacon, the DVR test, the delivery type of a source format and the
 * quartile progress test.
 */
module Playback {
  import opened Options

  /** What the host player answers at the moment a signal is handled. */
  datatype PlayerInfo = PlayerInfo(sessionId: Option<string>, position: int, duration: int, isLive: bool)

  /**
   * The media type tag of the media entry, compared by name: `TaggedVod` is a tag named "Vod",
   * `TaggedLive` a tag named "Live", `Untagged` any other name.
   */
  datatype MediaEntryType = TaggedVod | TaggedLive | Untagged

  /** The plugin's own `KavaMediaEntryType`. */
  datatype PlaybackType = Vod | Live | Dvr | Unknown

  /** `kavaPlaybackType.name().toLowerCase()`. */
  function PlaybackTypeName(t: PlaybackType): (r: string)
    ensures t.Vod? <==> r == "vod"
    ensures t.Live? <==> r == "live"
    ensures t.Dvr? <==> r == "dvr"
    ensures t.Unknown? <==> r == "unknown"
  {
    match t
    case Vod => "vod"
    case Live => "live"
    case Dvr => "dvr"
    case Unknown => "unknown"
  }

  /** `hasDvr()`: a live player far enough from the live edge. */
  function HasDvr(player: Option<PlayerInfo>, dvrThreshold: int): (r: bool)
    ensures r ==> player.Some? && player.value.isLive
    ensures player.Some? && player.value.isLive ==>
              (r <==> player.value.duration - player.value.position >= dvrThreshold)
  {
    match player
    case None => false
    case Some(p) => p.isLive && p.duration - p.position >= dvrThreshold
  }

  /** Live content is refined to DVR when the player is far enough from the live edge. */
  function LiveOrDvr(player: Option<PlayerInfo>, dvrThreshold: int): PlaybackType {
    if HasDvr(player, dvrThreshold) then Dvr else Live
  }

  /**
   * `getPlaybackType(event)`: the media entry's tag wins; without a usable tag the player is
   * asked, unless there is no player or the beacon is an ERROR beacon.
   */
  function GetPlaybackType(tag: MediaEntryType, isErrorEvent: bool, player: Option<PlayerInfo>,
                           dvrThreshold: int): (r: PlaybackType)
    ensures r == Vod <==>
              tag == TaggedVod ||
              (tag == Untagged && player.Some? && !isErrorEvent && !player.value.isLive)
    ensures r == Dvr <==>
              (tag == TaggedLive || (tag == Untagged && player.Some? && !isErrorEvent)) &&
              player.Some? && player.value.isLive &&
              player.value.duration - player.value.position >= dvrThreshold
    ensures r == Unknown <==> tag == Untagged && (player.None? || isErrorEvent)
    ensures tag == TaggedLive ==> r != Vod && r != Unknown
  {
    match tag
    case TaggedVod => Vod
    case TaggedLive => LiveOrDvr(player, dvrThreshold)
    case Untagged =>
      if player.None? || isErrorEvent then Unknown
      else if !player.value.isLive then Vod
      else LiveOrDvr(player, dvrThreshold)
  }

  /** The `PKMediaFormat` of the selected source, as far as the plugin distinguishes it. */
  datatype MediaFormat = Dash | Hls | OtherFormat

  /** The host library's stream-format names used as `deliveryType`. */
  datatype StreamFormat = MpegDash | AppleHttp | Url

  /** The mapping inside `updateDeliveryType`. */
  function DeliveryTypeOf(f: MediaFormat): (r: StreamFormat)
    ensures r == MpegDash <==> f == Dash
    ensures r == AppleHttp <==> f == Hls
    ensures r == Url <==> f == OtherFormat
  {
    match f
    case Dash => MpegDash
    case Hls => AppleHttp
    case OtherFormat => Url
  }

  /**
   * The quartile test `progress < k/4` where `progress = (float) position / duration`,
   * written without division: a positive duration keeps the comparison, a negative one flips
   * it, and a zero duration gives +Infinity, -Infinity or NaN (NaN compares false both ways).
   */
  predicate ProgressBelow(position: int, duration: int, k: int) {
    if duration > 0 then 4 * position < k * duration
    else if duration < 0 then 4 * position > k * duration
    else position < 0
  }

  /** The quartile test `progress >= k/4`, with the same float semantics. */
  predicate ProgressAtLeast(position: int, duration: int, k: int) {
    if duration > 0 then 4 * position >= k * duration
    else if duration < 0 then 4 * position <= k * duration
    else position > 0
  }

  /** A later quartile implies the earlier ones, so the milestones can only be crossed in order. */
  lemma QuartilesNested(position: int, duration: int)
    ensures ProgressAtLeast(position, duration, 3) ==> ProgressAtLeast(position, duration, 2)
    ensures ProgressAtLeast(position, duration, 2) ==> !ProgressBelow(position, duration, 1)
  {
  }

  /** The two tests are complementary except for the NaN of 0/0. */
  lemma ProgressComplement(position: int, duration: int, k: int)
    requires duration != 0 || position != 0
    ensures ProgressBelow(position, duration, k) <==> !ProgressAtLeast(position, duration, k)
  {
  }
}
