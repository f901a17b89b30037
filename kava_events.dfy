/** The analytics event codes a beacon can carry (the `KavaEvents` enum of the plugin). */
module KavaEvents {

  datatype KavaEvent =
    | IMPRESSION
    | PLAY_REQUEST
    | PLAY
    | RESUME
    | PLAY_REACHED_25_PERCENT
    | PLAY_REACHED_50_PERCENT
    | PLAY_REACHED_75_PERCENT
    | PLAY_REACHED_100_PERCENT
    | PAUSE
    | REPLAY
    | SEEK
    | CAPTIONS
    | SOURCE_SELECTED   // video track changed manually
    | AUDIO_SELECTED    // audio track changed manually
    | FLAVOR_SWITCHED   // adaptive bitrate switch
    | ERROR
    | VIEW

  /** The numeric `eventType` sent to the backend for each event. */
  function Code(e: KavaEvent): (r: int)
    ensures 1 <= r <= 99
    ensures e.VIEW? <==> r == 99
    ensures e.ERROR? <==> r == 98
  {
    match e
    case IMPRESSION => 1
    case PLAY_REQUEST => 2
    case PLAY => 3
    case RESUME => 4
    case PLAY_REACHED_25_PERCENT => 11
    case PLAY_REACHED_50_PERCENT => 12
    case PLAY_REACHED_75_PERCENT => 13
    case PLAY_REACHED_100_PERCENT => 14
    case PAUSE => 33
    case REPLAY => 34
    case SEEK => 35
    case CAPTIONS => 38
    case SOURCE_SELECTED => 39
    case AUDIO_SELECTED => 42
    case FLAVOR_SWITCHED => 43
    case ERROR => 98
    case VIEW => 99
  }

  /** No two events share a code, so the backend can tell every beacon's event apart. */
  lemma CodeInjective(a: KavaEvent, b: KavaEvent)
    ensures Code(a) == Code(b) ==> a == b
  {
  }
}
