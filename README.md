# KAVA playback analytics, modelled in Dafny

This project models the analytics core of the Kaltura Playkit KAVA plugin (`KavaAnalyticsPlugin`).
The plugin listens to the player's lifecycle events and a one-second timer. From them it decides
which analytics events (IMPRESSION, PLAY_REQUEST, PLAY, RESUME, the 25/50/75/100% milestones,
PAUSE, SEEK, VIEW, ERROR, …) to send to the analytics backend. Each beacon carries an ordered
parameter map built by `gatherParams`. Along the way the plugin keeps:

- milestone and play-state flags;
- a ten-second VIEW heartbeat counter;
- per-view and per-entry buffering totals;
- a stored error code that is consumed once;
- an event index;
- the session start time returned by the server.

Files and modules:

- `kava_events.dfy` (`KavaEvents`): the event enum and its numeric codes.
- `playback.dfy` (`Playback`): the pure decisions.
  - `getPlaybackType` and `hasDvr`;
  - the format-to-delivery-type mapping;
  - the quartile progress test, written without division under Java float semantics (a zero or negative duration included).
- `linked_maps.dfy` (`LinkedMaps`): a `LinkedHashMap` as its key order beside a mapping. `put` replaces in place or appends.
- `params.dfy` (`ParamMaps`): the parameter names, their wire names and symbolic values.
- `session.dfy` (`Session`): the plugin's fields as a `State` value, with one pure transition per listener case, timer action and host callback.
  - `Step` handles one input: a host call, a player event, a timer tick or a request completion.
  - `Run` handles a sequence of inputs.
  - Each transition that sends at most one event has an `…Effect` lemma stating its whole new state, the events it sends and the exact beacon it queues. `OnReplay` and the three track changes are a single `Emit`, covered by `EmitEffect` and `EmitSends`. `UpdateDeliveryType` and `OnApplicationPaused` change one or two fields and send nothing; `SessionProperties.StepSends` covers them.
  - The transitions that can send several events are `MaybeSendPlayerReachedEvent`, `OnTimerTick`, `OnLoadedMetadata` and `OnEnded`. Their `…Effect` lemmas state the fields they change and list the ones they keep. Their `…Sends` lemmas state the events sent, in order. Their `…Keeps` lemmas state only that the queue keeps its prefix and grows by one beacon per event logged, not which beacons are added.
  - The state logs both the events sent and the parameter maps queued for them; `QueueKept` says that a transition keeps every queued map and queues one per event it logs.
- `beacons.dfy` (`BeaconContents`): what each beacon's parameter map holds and lacks.
- `plugin.dfy` (`Kava`): the plugin as a class whose methods update its fields in place and queue the requests, following the source's statements block by block.
  - Every method is proved to perform exactly the corresponding `Session` transition.
  - The invariant `Valid` says that the request queue is exactly the state's log of queued beacons, and that each queued request's `eventType` is the logged event at the same position.
- `properties.dfy` (`SessionProperties`): properties of whole runs.
  - Each input sends exactly its decided events, subject to the send guard, and queues one beacon per event sent without touching earlier ones.
  - The beacons queued by ERROR, PLAY, VIEW, SEEK, FLAVOR_SWITCHED and the track changes carry, respectively, the error's own code, the join time, the buffer times, the seek target, the new bitrate and the new track's bitrate or language (`BeaconContents`).
  - IMPRESSION, PLAY and every milestone are sent at most once per media.
  - IMPRESSION is sent at most once overall.
  - Milestones are sent in ascending order.
  - PLAYING after ENDED sends no RESUME.
  - Repeated bitrates cause at most one FLAVOR_SWITCHED.
  - The VIEW cadence is one per ten unpaused ticks.
  - The per-entry buffering total never decreases.
  - The first session start time wins.
  - Nothing is sent without the partner and entry ids.
  - The event index counts the beacons of a media from 1.

External inputs are parameters:

- the wall clock (`Env.now`);
- the player's session id, position, duration and liveness (`Env.player`);
- bitrates, languages, source formats and error types, carried by the player events;
- the configuration, carried by `UpdateConfig`;
- the response body of a request (`Response`).

Behaviour worth noting:

- A media change re-arms first play and the four milestones but not the impression. It also keeps the autoplay flag, the buffering mark and the view counter. A plugin therefore sends IMPRESSION at most once in its life (`SessionProperties.ImpressionOnce`), not once per media.
- Stopping the timer (on application pause or destroy) leaves the view counter alone. The counter is reset to 0 only when the timer is started while one is already running.
- READY never clears the buffering mark: it moves the mark to now. A READY changes nothing only while the mark is 0.
- The buffer totals are non-negative and the per-entry total never decreases only while the clock does not go back (`SessionProperties.BufferTotalGrows`).

## Model

| member | source | states |
|---|---|---|
| KavaEvents.Code | kavaplugin/src/main/java/com/kaltura/playkit/plugins/kava/KavaAnalyticsPlugin.java:119-136 | Every event has its numeric `eventType` between 1 and 99; VIEW alone is 99 and ERROR alone is 98. |
| KavaEvents.CodeInjective | kavaplugin/src/main/java/com/kaltura/playkit/plugins/kava/KavaAnalyticsPlugin.java:119-136 | No two events share a code, so the backend can tell every beacon's event apart. |
| Playback.PlaybackTypeName | kavaplugin/src/main/java/com/kaltura/playkit/plugins/kava/KavaAnalyticsPlugin.java:560 | Each playback type is reported by its lower-case name: vod, live, dvr, unknown. |
| Playback.HasDvr | kavaplugin/src/main/java/com/kaltura/playkit/plugins/kava/KavaAnalyticsPlugin.java:563-573 | DVR holds only for a present, live player, and then exactly when `duration - position >= dvrThreshold`. |
| Playback.GetPlaybackType | kavaplugin/src/main/java/com/kaltura/playkit/plugins/kava/KavaAnalyticsPlugin.java:537-561 | Vod exactly for a Vod tag, or an untagged entry with a player that is not live outside an ERROR beacon; Dvr exactly for live content far enough from the live edge; Unknown exactly for an untagged entry with no player or on an ERROR beacon; a Live tag is never Vod or Unknown. |
| Playback.DeliveryTypeOf | kavaplugin/src/main/java/com/kaltura/playkit/plugins/kava/KavaAnalyticsPlugin.java:518-526 | dash maps to MpegDash, hls to AppleHttp, and every other format to Url, each in both directions. |
| Playback.QuartilesNested | kavaplugin/src/main/java/com/kaltura/playkit/plugins/kava/KavaAnalyticsPlugin.java:477-497 | Under Java float comparison, reaching 75% implies reaching 50%, and reaching 50% implies not being below 25%. |
| Playback.ProgressComplement | kavaplugin/src/main/java/com/kaltura/playkit/plugins/kava/KavaAnalyticsPlugin.java:477-479 | "Below k quarters" and "at least k quarters" are complementary except for the NaN of 0/0. |
| LinkedMaps.Empty | kavaplugin/src/main/java/com/kaltura/playkit/plugins/kava/KavaAnalyticsPlugin.java:348 | A new `LinkedHashMap` is well formed and has no keys. |
| LinkedMaps.PutGet | kavaplugin/src/main/java/com/kaltura/playkit/plugins/kava/KavaAnalyticsPlugin.java:351-366 | After `put(k, v)`, `get(k)` gives `v` and `get` of any other key is unchanged. |
| LinkedMaps.PutValid | kavaplugin/src/main/java/com/kaltura/playkit/plugins/kava/KavaAnalyticsPlugin.java:351-366 | A put keeps each key once in the iteration order, and the order lists exactly the keys of the mapping. |
| LinkedMaps.GetKeys | kavaplugin/src/main/java/com/kaltura/playkit/plugins/kava/KavaAnalyticsPlugin.java:351-366 | In a well-formed map, `get` finds a value exactly for the keys in the iteration order. |
| ParamMaps.OptText | kavaplugin/src/main/java/com/kaltura/playkit/plugins/kava/KavaAnalyticsPlugin.java:392-395 | A null caption or language is stored as a null value, and only then; a present one is stored as its text. |
| ParamMaps.TextIfPresent | kavaplugin/src/main/java/com/kaltura/playkit/plugins/kava/KavaAnalyticsPlugin.java:365-367 | The session start time is put exactly when it is present, and then as its text. |
| ParamMaps.KeyNameInjective | kavaplugin/src/main/java/com/kaltura/playkit/plugins/kava/KavaAnalyticsPlugin.java:351-432 | Each parameter name of a request reads back as exactly one key, so no two keys share a name and a put of one parameter never replaces another's entry. |
| Session.LoadedEffect | kavaplugin/src/main/java/com/kaltura/playkit/plugins/kava/KavaAnalyticsPlugin.java:69-95 | A new plugin is paused, awaits its first play, has not sent the impression, runs no timer, has no error code or bitrate, has sent nothing and has no media. |
| Session.OnUpdateConfigEffect | kavaplugin/src/main/java/com/kaltura/playkit/plugins/kava/KavaAnalyticsPlugin.java:168-175 | Only the configuration and the referrer change; the referrer is the configured one when present, otherwise the default. |
| Session.OnUpdateMediaEffect | kavaplugin/src/main/java/com/kaltura/playkit/plugins/kava/KavaAnalyticsPlugin.java:160-166 | A new media sets the entry, clears the session start time, sets the index to 1, resets the play flags, the error code, the bitrate, both buffer totals and all four milestones. It keeps the impression, autoplay, buffering mark, view counter and timer, and sends nothing. |
| Session.EmitEffect | kavaplugin/src/main/java/com/kaltura/playkit/plugins/kava/KavaAnalyticsPlugin.java:315-341 | Without a valid partner id and an entry id nothing changes. Otherwise exactly one event is appended to the log, the beacon gathered from the state before the send is appended to the queue, and the index grows by one. Building an ERROR beacon resets the error code, and no other field changes. |
| Session.EmitSends | kavaplugin/src/main/java/com/kaltura/playkit/plugins/kava/KavaAnalyticsPlugin.java:315-341 | When a beacon can be sent, the event is logged, its beacon queued, the index grows by one, and only an ERROR resets the error code. |
| Session.EmitKeeps | kavaplugin/src/main/java/com/kaltura/playkit/plugins/kava/KavaAnalyticsPlugin.java:315-341 | A send keeps every request already queued, in place, and queues one request per event it logs. |
| Session.StartAnalyticsTimerEffect | kavaplugin/src/main/java/com/kaltura/playkit/plugins/kava/KavaAnalyticsPlugin.java:436-452 | The timer runs afterwards. The view counter is reset to 0 only when a timer was already running; nothing else changes. |
| Session.StopAnalyticsTimerEffect | kavaplugin/src/main/java/com/kaltura/playkit/plugins/kava/KavaAnalyticsPlugin.java:454-460 | Only the timer stops; the view counter is left alone. |
| Session.MaybeSendViewEventEffect | kavaplugin/src/main/java/com/kaltura/playkit/plugins/kava/KavaAnalyticsPlugin.java:462-469 | The counter advances by one second. When a view period completes, a VIEW is sent, its beacon (built before the resets) is queued, and the counter and the per-view buffer time go to 0. The per-entry buffer time and every other field are unchanged. |
| Session.ReachQuarterEffect | kavaplugin/src/main/java/com/kaltura/playkit/plugins/kava/KavaAnalyticsPlugin.java:483-486 | The 25% flag is set, and PLAY_REACHED_25_PERCENT is sent, with its beacon queued, only when the flag was clear. |
| Session.ReachHalfEffect | kavaplugin/src/main/java/com/kaltura/playkit/plugins/kava/KavaAnalyticsPlugin.java:488-491 | The 50% flag is set and PLAY_REACHED_50_PERCENT is sent, with its beacon queued, exactly when the flag was clear and progress is at least 50%. |
| Session.ReachThreeQuartersEffect | kavaplugin/src/main/java/com/kaltura/playkit/plugins/kava/KavaAnalyticsPlugin.java:493-496 | The 75% flag is set and PLAY_REACHED_75_PERCENT is sent, with its beacon queued, exactly when the flag was clear and progress is at least 75%. |
| Session.MaybeSendPlayerReachedEventEffect | kavaplugin/src/main/java/com/kaltura/playkit/plugins/kava/KavaAnalyticsPlugin.java:471-497 | Each quartile flag becomes set exactly when it was set or its quartile has been crossed on non-live content. The 100% flag and every other field are unchanged. |
| Session.MaybeSendPlayerReachedEventSends | kavaplugin/src/main/java/com/kaltura/playkit/plugins/kava/KavaAnalyticsPlugin.java:471-497 | The events sent are the newly crossed milestones, 25 before 50 before 75, each only if its flag was clear; nothing for live content or below 25%. |
| Session.ReachLogs | kavaplugin/src/main/java/com/kaltura/playkit/plugins/kava/KavaAnalyticsPlugin.java:483-497 | Past the first quartile, each milestone block logs its milestone exactly when it is newly reached, and leaves the higher flags and the send guard alone. |
| Session.ReachKeeps | kavaplugin/src/main/java/com/kaltura/playkit/plugins/kava/KavaAnalyticsPlugin.java:483-497 | Each milestone block keeps the queue in step with the log. |
| Session.MaybeSendPlayerReachedEventKeeps | kavaplugin/src/main/java/com/kaltura/playkit/plugins/kava/KavaAnalyticsPlugin.java:471-497 | The milestone check keeps every queued request and queues one per milestone it logs. |
| Session.OnTimerTickEffect | kavaplugin/src/main/java/com/kaltura/playkit/plugins/kava/KavaAnalyticsPlugin.java:446-449 | A paused tick changes nothing. Otherwise the view counter advances or, when due, resets to 0. The pause, timer, first-play, impression, 100% flag, media, config, bitrate, start time, buffering mark and per-entry total are unchanged. |
| Session.OnTimerTickSends | kavaplugin/src/main/java/com/kaltura/playkit/plugins/kava/KavaAnalyticsPlugin.java:446-449 | An unpaused tick sends the due VIEW first, then the newly reached milestones. |
| Session.OnTimerTickKeeps | kavaplugin/src/main/java/com/kaltura/playkit/plugins/kava/KavaAnalyticsPlugin.java:446-449 | A tick keeps every queued request and queues one per event it logs. |
| Session.SendPendingPlayRequestEffect | kavaplugin/src/main/java/com/kaltura/playkit/plugins/kava/KavaAnalyticsPlugin.java:206-209 | A pending autoplay is announced with one PLAY_REQUEST, whose beacon is queued, and cleared; without one nothing happens. |
| Session.OnLoadedMetadataEffect | kavaplugin/src/main/java/com/kaltura/playkit/plugins/kava/KavaAnalyticsPlugin.java:202-212 | Once the impression was sent nothing changes. Otherwise the timer starts, the impression is marked and autoplay is cleared; the milestones, flags, totals, media and config are kept. |
| Session.OnLoadedMetadataSends | kavaplugin/src/main/java/com/kaltura/playkit/plugins/kava/KavaAnalyticsPlugin.java:202-212 | Sends IMPRESSION, followed by PLAY_REQUEST when autoplay was pending, and nothing once the impression was sent. |
| Session.OnLoadedMetadataKeeps | kavaplugin/src/main/java/com/kaltura/playkit/plugins/kava/KavaAnalyticsPlugin.java:202-212 | The first metadata keeps every queued request and queues one per event it logs. |
| Session.OnPlayEffect | kavaplugin/src/main/java/com/kaltura/playkit/plugins/kava/KavaAnalyticsPlugin.java:213-222 | The join-time start is taken only on the first play. Before the impression, PLAY marks autoplay instead of sending; after it, PLAY sends PLAY_REQUEST and queues its beacon, built after the join-time start is taken. |
| Session.OnPauseEffect | kavaplugin/src/main/java/com/kaltura/playkit/plugins/kava/KavaAnalyticsPlugin.java:223-226 | PAUSE marks the playback paused, sends PAUSE and queues its beacon, built from the paused state, changing nothing else. |
| Session.OnPlayingEffect | kavaplugin/src/main/java/com/kaltura/playkit/plugins/kava/KavaAnalyticsPlugin.java:227-238 | PLAYING sends PLAY exactly on the first play, RESUME exactly after a pause that was not an end, and nothing otherwise, queuing the beacon of what it sends. It always clears first-play, ended and paused. |
| Session.WholeSeconds | kavaplugin/src/main/java/com/kaltura/playkit/plugins/kava/KavaAnalyticsPlugin.java:241 | The seek target in whole seconds, truncated toward zero as Java `long` division does. |
| Session.OnSeekingEffect | kavaplugin/src/main/java/com/kaltura/playkit/plugins/kava/KavaAnalyticsPlugin.java:239-243 | The target position is kept in whole seconds, SEEK is sent and the beacon built from the state holding that target is queued; nothing else changes. What the beacon carries is stated by `BeaconContents.SeekQueued`. |
| Session.ReachEndEffect | kavaplugin/src/main/java/com/kaltura/playkit/plugins/kava/KavaAnalyticsPlugin.java:253-256 | The 100% flag is set, and PLAY_REACHED_100_PERCENT is sent, with its beacon queued, only when it was clear. |
| Session.OnEndedEffect | kavaplugin/src/main/java/com/kaltura/playkit/plugins/kava/KavaAnalyticsPlugin.java:251-260 | ENDED brings the quartile flags up to the position, sets the 100% flag and marks playback ended and paused; everything else is kept. |
| Session.OnEndedSends | kavaplugin/src/main/java/com/kaltura/playkit/plugins/kava/KavaAnalyticsPlugin.java:251-260 | ENDED sends the newly crossed quartile milestones, then PLAY_REACHED_100_PERCENT only when it was not yet sent. |
| Session.OnEndedKeeps | kavaplugin/src/main/java/com/kaltura/playkit/plugins/kava/KavaAnalyticsPlugin.java:251-260 | ENDED keeps every queued request and queues one per event it logs. |
| Session.OnPlaybackInfoUpdatedEffect | kavaplugin/src/main/java/com/kaltura/playkit/plugins/kava/KavaAnalyticsPlugin.java:261-267 | The reported bitrate is stored, and FLAVOR_SWITCHED is sent exactly when the new bitrate differs from the current one, and the beacon built from the state holding the new bitrate is queued. What the beacon carries is stated by `BeaconContents.FlavorQueued`. |
| Session.ErrorCodeOf | kavaplugin/src/main/java/com/kaltura/playkit/plugins/kava/KavaAnalyticsPlugin.java:284-291 | A player error's code and an ad error's code are the codes they carry; any other error has none. |
| Session.OnErrorEffect | kavaplugin/src/main/java/com/kaltura/playkit/plugins/kava/KavaAnalyticsPlugin.java:283-295 | The error's code is stored and an ERROR is sent, queuing the beacon built with that code. The code is consumed exactly when the beacon can be sent. |
| Session.CalculateTotalBufferTimePerViewEventEffect | kavaplugin/src/main/java/com/kaltura/playkit/plugins/kava/KavaAnalyticsPlugin.java:509-516 | Without a buffering mark nothing changes. Otherwise the same time since the mark is added to the per-view and the per-entry totals, and the mark moves to now. |
| Session.HandleStateChangedEffect | kavaplugin/src/main/java/com/kaltura/playkit/plugins/kava/KavaAnalyticsPlugin.java:302-313 | BUFFERING sets the mark to now only after the impression and leaves the totals alone. READY performs the buffer calculation, and other states change nothing. |
| Session.OnResponseEffect | kavaplugin/src/main/java/com/kaltura/playkit/plugins/kava/KavaAnalyticsPlugin.java:330-334 | The first session start time received is kept; once one is present, responses change nothing. |
| BeaconContents.OptionalKeeps | kavaplugin/src/main/java/com/kaltura/playkit/plugins/kava/KavaAnalyticsPlugin.java:409-434 | The optional configuration puts leave every other parameter as it was. |
| BeaconContents.EventKeeps | kavaplugin/src/main/java/com/kaltura/playkit/plugins/kava/KavaAnalyticsPlugin.java:369-403 | The event's puts leave every parameter outside the switch as it was. |
| BeaconContents.ContextKeeps | kavaplugin/src/main/java/com/kaltura/playkit/plugins/kava/KavaAnalyticsPlugin.java:358-367 | The referrer-to-session-start puts leave every other parameter as it was. |
| BeaconContents.BeaconFromMandatory | kavaplugin/src/main/java/com/kaltura/playkit/plugins/kava/KavaAnalyticsPlugin.java:343-407 | A parameter put neither by the switch nor by the optional block has its mandatory value in the beacon. |
| BeaconContents.MandatoryEventFields | kavaplugin/src/main/java/com/kaltura/playkit/plugins/kava/KavaAnalyticsPlugin.java:353-357 | The mandatory block reports the event code and the current event index. |
| BeaconContents.MandatoryEntryFields | kavaplugin/src/main/java/com/kaltura/playkit/plugins/kava/KavaAnalyticsPlugin.java:354-355 | The mandatory block reports the entry id and the partner id. |
| BeaconContents.MandatoryPlaybackFields | kavaplugin/src/main/java/com/kaltura/playkit/plugins/kava/KavaAnalyticsPlugin.java:360-367 | The mandatory block reports the playback type, and the session start time exactly when there is one. |
| BeaconContents.IdentityLacksEventKeys | kavaplugin/src/main/java/com/kaltura/playkit/plugins/kava/KavaAnalyticsPlugin.java:351-357 | The identifying puts put none of the parameters of the switch. |
| BeaconContents.MandatoryLacksErrorAndJoin | kavaplugin/src/main/java/com/kaltura/playkit/plugins/kava/KavaAnalyticsPlugin.java:348-367 | The mandatory block puts no error code and no join time. |
| BeaconContents.MandatoryLacksBuffering | kavaplugin/src/main/java/com/kaltura/playkit/plugins/kava/KavaAnalyticsPlugin.java:348-367 | The mandatory block puts no buffer times. |
| BeaconContents.EventError | kavaplugin/src/main/java/com/kaltura/playkit/plugins/kava/KavaAnalyticsPlugin.java:397-402 | The switch puts an error code exactly for an ERROR beacon while a code is stored, and then that code. |
| BeaconContents.EventJoin | kavaplugin/src/main/java/com/kaltura/playkit/plugins/kava/KavaAnalyticsPlugin.java:379-382 | The switch puts a join time, the time since the play request, exactly for PLAY. |
| BeaconContents.EventBuffer | kavaplugin/src/main/java/com/kaltura/playkit/plugins/kava/KavaAnalyticsPlugin.java:370-376 | The switch puts the per-view and per-entry buffer times exactly for VIEW, PLAY and RESUME. |
| BeaconContents.BeaconEventFields | kavaplugin/src/main/java/com/kaltura/playkit/plugins/kava/KavaAnalyticsPlugin.java:353-357 | Every beacon reports its event code and the event index at the time of sending. |
| BeaconContents.BeaconEntryFields | kavaplugin/src/main/java/com/kaltura/playkit/plugins/kava/KavaAnalyticsPlugin.java:354-355 | Every beacon reports the entry id and the partner id. |
| BeaconContents.BeaconPlaybackFields | kavaplugin/src/main/java/com/kaltura/playkit/plugins/kava/KavaAnalyticsPlugin.java:360-367 | Every beacon reports its playback type, and the session start time exactly when one is known. |
| BeaconContents.BeaconErrorCode | kavaplugin/src/main/java/com/kaltura/playkit/plugins/kava/KavaAnalyticsPlugin.java:397-402 | A beacon carries an error code exactly when it is an ERROR beacon and a code is stored. |
| BeaconContents.BeaconJoinTime | kavaplugin/src/main/java/com/kaltura/playkit/plugins/kava/KavaAnalyticsPlugin.java:379-382 | A beacon carries a join time exactly when it is the PLAY beacon. |
| BeaconContents.BeaconBufferTimes | kavaplugin/src/main/java/com/kaltura/playkit/plugins/kava/KavaAnalyticsPlugin.java:370-376 | A beacon carries the per-view and per-entry buffer times exactly when it is a VIEW, PLAY or RESUME beacon. |
| BeaconContents.MandatoryIdentityFields | kavaplugin/src/main/java/com/kaltura/playkit/plugins/kava/KavaAnalyticsPlugin.java:343-357 | The identifying puts report the service, the action and the player's session id, or the empty one when the player has none. |
| BeaconContents.MandatoryContextFields | kavaplugin/src/main/java/com/kaltura/playkit/plugins/kava/KavaAnalyticsPlugin.java:358-363 | The context puts report the referrer, the delivery type, the client tag as client version and client tag, and the position. |
| BeaconContents.MandatoryLacksDetails | kavaplugin/src/main/java/com/kaltura/playkit/plugins/kava/KavaAnalyticsPlugin.java:348-367 | The mandatory block puts no bitrate, seek target, caption or language. |
| BeaconContents.MandatoryLacksOptional | kavaplugin/src/main/java/com/kaltura/playkit/plugins/kava/KavaAnalyticsPlugin.java:348-367 | The mandatory block puts none of the optional configuration values. |
| BeaconContents.IdentityLacksOptionalKeys | kavaplugin/src/main/java/com/kaltura/playkit/plugins/kava/KavaAnalyticsPlugin.java:350-357 | The identifying puts put none of the optional configuration values. |
| BeaconContents.EventBitrate | kavaplugin/src/main/java/com/kaltura/playkit/plugins/kava/KavaAnalyticsPlugin.java:369-390 | The switch puts the bitrate exactly for VIEW, PLAY, RESUME, SOURCE_SELECTED and FLAVOR_SWITCHED, and then the current bitrate. |
| BeaconContents.EventTarget | kavaplugin/src/main/java/com/kaltura/playkit/plugins/kava/KavaAnalyticsPlugin.java:384-386 | The switch puts the seek target exactly for SEEK. |
| BeaconContents.EventTracks | kavaplugin/src/main/java/com/kaltura/playkit/plugins/kava/KavaAnalyticsPlugin.java:391-396 | The switch puts the caption language exactly for CAPTIONS and the audio language exactly for AUDIO_SELECTED, each as null when absent. |
| BeaconContents.OptionalFields | kavaplugin/src/main/java/com/kaltura/playkit/plugins/kava/KavaAnalyticsPlugin.java:409-434 | Into a map holding none of them, each optional configuration value is put exactly when it is set, and then as that value. |
| BeaconContents.BeaconServiceFields | kavaplugin/src/main/java/com/kaltura/playkit/plugins/kava/KavaAnalyticsPlugin.java:351-352 | Every beacon names the analytics service and the trackEvent action. |
| BeaconContents.BeaconSessionFields | kavaplugin/src/main/java/com/kaltura/playkit/plugins/kava/KavaAnalyticsPlugin.java:350-358 | Every beacon reports the player's session id, or the empty one, and the referrer. |
| BeaconContents.BeaconDeliveryFields | kavaplugin/src/main/java/com/kaltura/playkit/plugins/kava/KavaAnalyticsPlugin.java:359-363 | Every beacon reports the delivery type and the playback position. |
| BeaconContents.BeaconClientFields | kavaplugin/src/main/java/com/kaltura/playkit/plugins/kava/KavaAnalyticsPlugin.java:361-362 | Every beacon reports the client tag as both client version and client tag. |
| BeaconContents.BeaconBitrateAndTarget | kavaplugin/src/main/java/com/kaltura/playkit/plugins/kava/KavaAnalyticsPlugin.java:369-390 | A beacon carries the current bitrate exactly when it is a VIEW, PLAY, RESUME, SOURCE_SELECTED or FLAVOR_SWITCHED beacon, and the seek target exactly when it is a SEEK beacon. |
| BeaconContents.BeaconTrackFields | kavaplugin/src/main/java/com/kaltura/playkit/plugins/kava/KavaAnalyticsPlugin.java:391-396 | A beacon carries the caption language exactly when it is a CAPTIONS beacon and the audio language exactly when it is an AUDIO_SELECTED beacon. |
| BeaconContents.BeaconOptionalFields | kavaplugin/src/main/java/com/kaltura/playkit/plugins/kava/KavaAnalyticsPlugin.java:405-434 | Every beacon carries exactly the optional configuration values that are set, each as its value. |
| BeaconContents.ErrorQueued | kavaplugin/src/main/java/com/kaltura/playkit/plugins/kava/KavaAnalyticsPlugin.java:283-295 | An ERROR queues one request after those already queued; it reports ERROR and its own error's code when that has one, never a code stored by an earlier error, and the stored code is consumed. |
| BeaconContents.PlayQueued | kavaplugin/src/main/java/com/kaltura/playkit/plugins/kava/KavaAnalyticsPlugin.java:227-231 | The first PLAYING queues one PLAY request reporting the join time since the play request and the per-view and per-entry buffer times. |
| BeaconContents.ViewQueued | kavaplugin/src/main/java/com/kaltura/playkit/plugins/kava/KavaAnalyticsPlugin.java:462-469 | A tick that completes a view period queues one VIEW request reporting the period's and the entry's buffer times, then restarts the period's total, so no buffering is reported by two VIEW requests. |
| BeaconContents.SeekQueued | kavaplugin/src/main/java/com/kaltura/playkit/plugins/kava/KavaAnalyticsPlugin.java:239-243 | A SEEKING queues one SEEK request, after those already queued, reporting the target in whole seconds. |
| BeaconContents.FlavorQueued | kavaplugin/src/main/java/com/kaltura/playkit/plugins/kava/KavaAnalyticsPlugin.java:261-267 | A bitrate change queues one FLAVOR_SWITCHED request, after those already queued, reporting the new bitrate. |
| BeaconContents.SourceSelectedQueued | kavaplugin/src/main/java/com/kaltura/playkit/plugins/kava/KavaAnalyticsPlugin.java:268-272 | A video track change queues one SOURCE_SELECTED request, after those already queued, reporting the track's bitrate. |
| BeaconContents.AudioSelectedQueued | kavaplugin/src/main/java/com/kaltura/playkit/plugins/kava/KavaAnalyticsPlugin.java:273-277 | An audio track change queues one AUDIO_SELECTED request, after those already queued, reporting the new language or null. |
| BeaconContents.CaptionsQueued | kavaplugin/src/main/java/com/kaltura/playkit/plugins/kava/KavaAnalyticsPlugin.java:278-282 | A text track change queues one CAPTIONS request, after those already queued, reporting the new caption language or null. |
| Kava.LoggedAppend | kavaplugin/src/main/java/com/kaltura/playkit/plugins/kava/KavaAnalyticsPlugin.java:325-340 | Queueing a beacon that reports its event keeps the request queue and the event log in step. |
| Kava.LoggedSend | kavaplugin/src/main/java/com/kaltura/playkit/plugins/kava/KavaAnalyticsPlugin.java:325-340 | Queueing the beacon built for an event, together with logging that event, keeps queue and log in step. |
| Kava.KavaAnalyticsPlugin.constructor | kavaplugin/src/main/java/com/kaltura/playkit/plugins/kava/KavaAnalyticsPlugin.java:150-157 | The plugin starts in the loaded state with an empty queue, which holds exactly the beacons logged so far. |
| Kava.KavaAnalyticsPlugin.OnUpdateMedia | kavaplugin/src/main/java/com/kaltura/playkit/plugins/kava/KavaAnalyticsPlugin.java:160-166 | Updates the fields in place as the media transition does; queues nothing. |
| Kava.KavaAnalyticsPlugin.OnUpdateConfig | kavaplugin/src/main/java/com/kaltura/playkit/plugins/kava/KavaAnalyticsPlugin.java:168-175 | Updates the configuration and referrer in place; queues nothing. |
| Kava.KavaAnalyticsPlugin.OnApplicationPaused | kavaplugin/src/main/java/com/kaltura/playkit/plugins/kava/KavaAnalyticsPlugin.java:177-181 | Marks the playback paused and stops the timer; queues nothing. |
| Kava.KavaAnalyticsPlugin.OnApplicationResumed | kavaplugin/src/main/java/com/kaltura/playkit/plugins/kava/KavaAnalyticsPlugin.java:183-186 | Starts the timer; queues nothing. |
| Kava.KavaAnalyticsPlugin.OnDestroy | kavaplugin/src/main/java/com/kaltura/playkit/plugins/kava/KavaAnalyticsPlugin.java:188-191 | Stops the timer; queues nothing. |
| Kava.KavaAnalyticsPlugin.OnResponse | kavaplugin/src/main/java/com/kaltura/playkit/plugins/kava/KavaAnalyticsPlugin.java:330-334 | Keeps the first session start time received; queues nothing. |
| Kava.KavaAnalyticsPlugin.ResetFlags | kavaplugin/src/main/java/com/kaltura/playkit/plugins/kava/KavaAnalyticsPlugin.java:575-583 | Resets the play flags, error code, bitrate and both buffer totals in place. |
| Kava.KavaAnalyticsPlugin.ResetPlayerReachedFlags | kavaplugin/src/main/java/com/kaltura/playkit/plugins/kava/KavaAnalyticsPlugin.java:585-587 | Clears the four milestone flags in place. |
| Kava.KavaAnalyticsPlugin.SendAnalyticsEvent | kavaplugin/src/main/java/com/kaltura/playkit/plugins/kava/KavaAnalyticsPlugin.java:315-341 | Without a valid partner id and an entry id, nothing is queued or changed. Otherwise exactly one request, holding the gathered parameters, is appended to the queue, and the log, the beacon log and the index advance. |
| Kava.KavaAnalyticsPlugin.QueueBeacon | kavaplugin/src/main/java/com/kaltura/playkit/plugins/kava/KavaAnalyticsPlugin.java:325-340 | Appends the gathered parameters to the queue, logs the event and its beacon and increments the index. |
| Kava.KavaAnalyticsPlugin.GatherParams | kavaplugin/src/main/java/com/kaltura/playkit/plugins/kava/KavaAnalyticsPlugin.java:343-407 | Returns the beacon's parameters and resets the error code when building an ERROR beacon. |
| Kava.KavaAnalyticsPlugin.PutMandatoryParams | kavaplugin/src/main/java/com/kaltura/playkit/plugins/kava/KavaAnalyticsPlugin.java:348-367 | Fills a new map with the mandatory parameters in their put order. |
| Kava.KavaAnalyticsPlugin.PutEventParams | kavaplugin/src/main/java/com/kaltura/playkit/plugins/kava/KavaAnalyticsPlugin.java:369-403 | Adds the event's parameters and resets a stored error code on ERROR. |
| Kava.KavaAnalyticsPlugin.AddOptionalParams | kavaplugin/src/main/java/com/kaltura/playkit/plugins/kava/KavaAnalyticsPlugin.java:409-434 | Adds the optional configuration values that are present. |
| Kava.KavaAnalyticsPlugin.StartAnalyticsTimer | kavaplugin/src/main/java/com/kaltura/playkit/plugins/kava/KavaAnalyticsPlugin.java:436-452 | Starts the timer, resetting the view counter when one was running. |
| Kava.KavaAnalyticsPlugin.StopAnalyticsTimer | kavaplugin/src/main/java/com/kaltura/playkit/plugins/kava/KavaAnalyticsPlugin.java:454-460 | Stops the timer and leaves the counter alone. |
| Kava.KavaAnalyticsPlugin.Tick | kavaplugin/src/main/java/com/kaltura/playkit/plugins/kava/KavaAnalyticsPlugin.java:446-449 | One run of the timer task: the tick transition, queuing exactly the beacons it logs. |
| Kava.KavaAnalyticsPlugin.MaybeSendViewEvent | kavaplugin/src/main/java/com/kaltura/playkit/plugins/kava/KavaAnalyticsPlugin.java:462-469 | Advances the view counter and, when a period completes, sends a VIEW: the view transition, queuing its beacon. |
| Kava.KavaAnalyticsPlugin.ResetViewPeriod | kavaplugin/src/main/java/com/kaltura/playkit/plugins/kava/KavaAnalyticsPlugin.java:466-467 | Sets the view counter and the per-view buffer time to 0. |
| Kava.KavaAnalyticsPlugin.MaybeSentPlayerReachedEvent | kavaplugin/src/main/java/com/kaltura/playkit/plugins/kava/KavaAnalyticsPlugin.java:471-497 | The milestone transition, queuing the beacons of the newly reached quartile milestones in ascending order. |
| Kava.KavaAnalyticsPlugin.ReachQuarterBlock | kavaplugin/src/main/java/com/kaltura/playkit/plugins/kava/KavaAnalyticsPlugin.java:483-486 | The 25% block: the 25% transition, queuing the milestone's beacon when it is sent. |
| Kava.KavaAnalyticsPlugin.ReachHalfBlock | kavaplugin/src/main/java/com/kaltura/playkit/plugins/kava/KavaAnalyticsPlugin.java:488-491 | The 50% block: the 50% transition, queuing the milestone's beacon when it is sent. |
| Kava.KavaAnalyticsPlugin.ReachThreeQuartersBlock | kavaplugin/src/main/java/com/kaltura/playkit/plugins/kava/KavaAnalyticsPlugin.java:493-496 | The 75% block: the 75% transition, queuing the milestone's beacon when it is sent. |
| Kava.KavaAnalyticsPlugin.OnEvent | kavaplugin/src/main/java/com/kaltura/playkit/plugins/kava/KavaAnalyticsPlugin.java:195-298 | The listener's switch, case by case: the player-event transition, with the queue holding exactly the beacons logged. |
| Kava.KavaAnalyticsPlugin.OnLoadedMetadata | kavaplugin/src/main/java/com/kaltura/playkit/plugins/kava/KavaAnalyticsPlugin.java:202-212 | The LOADED_METADATA case: the metadata transition, queuing the IMPRESSION beacon and a pending PLAY_REQUEST's. |
| Kava.KavaAnalyticsPlugin.OnPlay | kavaplugin/src/main/java/com/kaltura/playkit/plugins/kava/KavaAnalyticsPlugin.java:213-222 | The PLAY case: the play transition, queuing the PLAY_REQUEST beacon after the impression. |
| Kava.KavaAnalyticsPlugin.OnPause | kavaplugin/src/main/java/com/kaltura/playkit/plugins/kava/KavaAnalyticsPlugin.java:223-226 | The PAUSE case: the pause transition, queuing the PAUSE beacon. |
| Kava.KavaAnalyticsPlugin.OnPlaying | kavaplugin/src/main/java/com/kaltura/playkit/plugins/kava/KavaAnalyticsPlugin.java:227-238 | The PLAYING case: the playing transition, queuing the PLAY or RESUME beacon it sends. |
| Kava.KavaAnalyticsPlugin.OnSeeking | kavaplugin/src/main/java/com/kaltura/playkit/plugins/kava/KavaAnalyticsPlugin.java:239-243 | The SEEKING case: the seek transition, queuing the SEEK beacon. |
| Kava.KavaAnalyticsPlugin.OnReplay | kavaplugin/src/main/java/com/kaltura/playkit/plugins/kava/KavaAnalyticsPlugin.java:244-246 | The REPLAY case: one send of REPLAY, queuing its beacon. |
| Kava.KavaAnalyticsPlugin.UpdateDeliveryType | kavaplugin/src/main/java/com/kaltura/playkit/plugins/kava/KavaAnalyticsPlugin.java:518-526 | Stores the delivery type of the selected source; queues nothing. |
| Kava.KavaAnalyticsPlugin.OnEnded | kavaplugin/src/main/java/com/kaltura/playkit/plugins/kava/KavaAnalyticsPlugin.java:251-260 | The ENDED case: the end transition, queuing the milestone beacons it sends. |
| Kava.KavaAnalyticsPlugin.ReachEndBlock | kavaplugin/src/main/java/com/kaltura/playkit/plugins/kava/KavaAnalyticsPlugin.java:253-256 | The 100% block of ENDED: the 100% transition, queuing the milestone's beacon when it is sent. |
| Kava.KavaAnalyticsPlugin.OnPlaybackInfoUpdated | kavaplugin/src/main/java/com/kaltura/playkit/plugins/kava/KavaAnalyticsPlugin.java:261-267 | The PLAYBACK_INFO_UPDATED case: the bitrate transition, queuing the FLAVOR_SWITCHED beacon when the bitrate changes. |
| Kava.KavaAnalyticsPlugin.OnVideoTrackChanged | kavaplugin/src/main/java/com/kaltura/playkit/plugins/kava/KavaAnalyticsPlugin.java:268-272 | The VIDEO_TRACK_CHANGED case: stores the bitrate and sends SOURCE_SELECTED, queuing its beacon. |
| Kava.KavaAnalyticsPlugin.OnAudioTrackChanged | kavaplugin/src/main/java/com/kaltura/playkit/plugins/kava/KavaAnalyticsPlugin.java:273-277 | The AUDIO_TRACK_CHANGED case: stores the language and sends AUDIO_SELECTED, queuing its beacon. |
| Kava.KavaAnalyticsPlugin.OnTextTrackChanged | kavaplugin/src/main/java/com/kaltura/playkit/plugins/kava/KavaAnalyticsPlugin.java:278-282 | The TEXT_TRACK_CHANGED case: stores the language and sends CAPTIONS, queuing its beacon. |
| Kava.KavaAnalyticsPlugin.OnError | kavaplugin/src/main/java/com/kaltura/playkit/plugins/kava/KavaAnalyticsPlugin.java:283-295 | The ERROR case: the error transition, queuing the ERROR beacon with the error's code. |
| Kava.KavaAnalyticsPlugin.HandleStateChanged | kavaplugin/src/main/java/com/kaltura/playkit/plugins/kava/KavaAnalyticsPlugin.java:302-313 | The STATE_CHANGED case; queues nothing. |
| Kava.KavaAnalyticsPlugin.CalculateTotalBufferTimePerViewEvent | kavaplugin/src/main/java/com/kaltura/playkit/plugins/kava/KavaAnalyticsPlugin.java:509-516 | Adds the time since the buffering mark to both totals in place; queues nothing. |
| Kava.KavaAnalyticsPlugin.Handle | kavaplugin/src/main/java/com/kaltura/playkit/plugins/kava/KavaAnalyticsPlugin.java:195-298 | Handles any input as one step of the session; the queue stays exactly the beacons logged, each reporting the event logged with it. |
| SessionProperties.PlayerSendsA | kavaplugin/src/main/java/com/kaltura/playkit/plugins/kava/KavaAnalyticsPlugin.java:198-238 | For STATE_CHANGED, LOADED_METADATA, PLAY, PAUSE and PLAYING, the events sent are the decided ones, and only when a beacon can be sent. The index grows by their number. |
| SessionProperties.PlayerSendsB | kavaplugin/src/main/java/com/kaltura/playkit/plugins/kava/KavaAnalyticsPlugin.java:239-267 | The same for SEEKING, REPLAY, SOURCE_SELECTED, ENDED and PLAYBACK_INFO_UPDATED. |
| SessionProperties.PlayerSendsC | kavaplugin/src/main/java/com/kaltura/playkit/plugins/kava/KavaAnalyticsPlugin.java:268-295 | The same for the three track changes, ERROR and any other player event. |
| SessionProperties.PlayerEventSends | kavaplugin/src/main/java/com/kaltura/playkit/plugins/kava/KavaAnalyticsPlugin.java:198-295 | Every player event sends exactly its decided events, in order, subject to the send guard. |
| SessionProperties.MediaSends | kavaplugin/src/main/java/com/kaltura/playkit/plugins/kava/KavaAnalyticsPlugin.java:160-166 | A new media sends and queues nothing. |
| SessionProperties.ConfigSends | kavaplugin/src/main/java/com/kaltura/playkit/plugins/kava/KavaAnalyticsPlugin.java:168-175 | A new configuration sends and queues nothing and keeps the index. |
| SessionProperties.LifecycleSends | kavaplugin/src/main/java/com/kaltura/playkit/plugins/kava/KavaAnalyticsPlugin.java:177-191 | Pausing, resuming or destroying the application, and a request completing, send and queue nothing and keep the index. |
| SessionProperties.TickSends | kavaplugin/src/main/java/com/kaltura/playkit/plugins/kava/KavaAnalyticsPlugin.java:446-449 | A tick sends a due VIEW and then the newly reached milestones, only while the timer runs unpaused. |
| SessionProperties.StepSends | kavaplugin/src/main/java/com/kaltura/playkit/plugins/kava/KavaAnalyticsPlugin.java:195-341 | Every input appends exactly its decided events, or nothing when a beacon cannot be sent. Outside a media change, the index grows by the number sent. |
| SessionProperties.PlayerKeepsA | kavaplugin/src/main/java/com/kaltura/playkit/plugins/kava/KavaAnalyticsPlugin.java:198-238 | STATE_CHANGED, LOADED_METADATA, PLAY, PAUSE and PLAYING keep every queued request and queue one per event they log. |
| SessionProperties.PlayerKeepsB | kavaplugin/src/main/java/com/kaltura/playkit/plugins/kava/KavaAnalyticsPlugin.java:239-267 | The same for SEEKING, REPLAY, SOURCE_SELECTED, ENDED and PLAYBACK_INFO_UPDATED. |
| SessionProperties.PlayerKeepsC | kavaplugin/src/main/java/com/kaltura/playkit/plugins/kava/KavaAnalyticsPlugin.java:268-295 | The same for the three track changes, ERROR and any other player event. |
| SessionProperties.StepQueues | kavaplugin/src/main/java/com/kaltura/playkit/plugins/kava/KavaAnalyticsPlugin.java:195-341 | Every input keeps the requests already queued, in place, and queues exactly one request per event it sends. |
| SessionProperties.RunQueues | kavaplugin/src/main/java/com/kaltura/playkit/plugins/kava/KavaAnalyticsPlugin.java:195-341 | Over any run, no request once queued is rewritten or dropped, and the queue grows with the log. |
| SessionProperties.RunIndex | kavaplugin/src/main/java/com/kaltura/playkit/plugins/kava/KavaAnalyticsPlugin.java:315-341 | Between media changes, the event index and the number of beacons sent grow together. |
| SessionProperties.MediaIndex | kavaplugin/src/main/java/com/kaltura/playkit/plugins/kava/KavaAnalyticsPlugin.java:160-166 | After a new media, each beacon's index counts the beacons of that media from 1. |
| SessionProperties.QuietMarksA | kavaplugin/src/main/java/com/kaltura/playkit/plugins/kava/KavaAnalyticsPlugin.java:198-243 | STATE_CHANGED, PLAY, PAUSE and SEEKING leave the impression, first-play and milestone flags alone. |
| SessionProperties.QuietMarksB | kavaplugin/src/main/java/com/kaltura/playkit/plugins/kava/KavaAnalyticsPlugin.java:244-272 | REPLAY, PLAYBACK_INFO_UPDATED, VIDEO_TRACK_CHANGED and SOURCE_SELECTED leave those flags alone. |
| SessionProperties.QuietMarksC | kavaplugin/src/main/java/com/kaltura/playkit/plugins/kava/KavaAnalyticsPlugin.java:273-295 | The audio and text track changes, ERROR and other events leave those flags alone. |
| SessionProperties.PlayerMarks | kavaplugin/src/main/java/com/kaltura/playkit/plugins/kava/KavaAnalyticsPlugin.java:198-295 | Every player event moves the flags as the flag transition says. |
| SessionProperties.HostMarks | kavaplugin/src/main/java/com/kaltura/playkit/plugins/kava/KavaAnalyticsPlugin.java:168-191 | Config updates, application lifecycle calls and responses leave those flags alone. |
| SessionProperties.TickMarks | kavaplugin/src/main/java/com/kaltura/playkit/plugins/kava/KavaAnalyticsPlugin.java:446-449 | A tick brings the milestone flags up to the position only while the timer runs unpaused. |
| SessionProperties.MediaMarks | kavaplugin/src/main/java/com/kaltura/playkit/plugins/kava/KavaAnalyticsPlugin.java:160-166 | A new media re-arms first play and clears the milestones, but keeps the impression flag. |
| SessionProperties.StepMarks | kavaplugin/src/main/java/com/kaltura/playkit/plugins/kava/KavaAnalyticsPlugin.java:160-295 | Every input moves the flags exactly as the flag transition says. |
| SessionProperties.ReachedCount | kavaplugin/src/main/java/com/kaltura/playkit/plugins/kava/KavaAnalyticsPlugin.java:471-497 | Each quartile milestone occurs among those newly reached at most once, and exactly when its flag was clear and it was crossed. |
| SessionProperties.EndedCount | kavaplugin/src/main/java/com/kaltura/playkit/plugins/kava/KavaAnalyticsPlugin.java:251-260 | ENDED sends PLAY_REACHED_100_PERCENT once exactly when its flag was clear, besides the newly reached quartiles. |
| SessionProperties.EndedOnce | kavaplugin/src/main/java/com/kaltura/playkit/plugins/kava/KavaAnalyticsPlugin.java:251-260 | ENDED sends each once-only event at most once and never after its flag was set. Sending it sets the flag. |
| SessionProperties.TickCount | kavaplugin/src/main/java/com/kaltura/playkit/plugins/kava/KavaAnalyticsPlugin.java:446-449 | How often each event is decided on a tick. |
| SessionProperties.TickOnce | kavaplugin/src/main/java/com/kaltura/playkit/plugins/kava/KavaAnalyticsPlugin.java:446-449 | A tick sends each once-only event at most once, never after its flag was set, and sets the flag when it does. |
| SessionProperties.QuietOnce | kavaplugin/src/main/java/com/kaltura/playkit/plugins/kava/KavaAnalyticsPlugin.java:198-295 | Player events other than LOADED_METADATA, PLAYING and ENDED never decide a once-only event. |
| SessionProperties.LoadedOnce | kavaplugin/src/main/java/com/kaltura/playkit/plugins/kava/KavaAnalyticsPlugin.java:202-212 | LOADED_METADATA sends IMPRESSION at most once, never after the impression flag, and sets it. |
| SessionProperties.PlayingOnce | kavaplugin/src/main/java/com/kaltura/playkit/plugins/kava/KavaAnalyticsPlugin.java:227-238 | PLAYING sends PLAY at most once, never after first play was cleared, and clears it. |
| SessionProperties.DecidedOnce | kavaplugin/src/main/java/com/kaltura/playkit/plugins/kava/KavaAnalyticsPlugin.java:195-497 | No input decides a once-only event twice, or at all once its flag is set; deciding it sets the flag. |
| SessionProperties.MarksPersist | kavaplugin/src/main/java/com/kaltura/playkit/plugins/kava/KavaAnalyticsPlugin.java:160-166 | A flag, once set, stays set, except that a new media re-arms the play and milestone flags. |
| SessionProperties.StepOnce | kavaplugin/src/main/java/com/kaltura/playkit/plugins/kava/KavaAnalyticsPlugin.java:195-497 | No input sends a once-only event without using up its allowance. |
| SessionProperties.RunOnce | kavaplugin/src/main/java/com/kaltura/playkit/plugins/kava/KavaAnalyticsPlugin.java:195-497 | Over any run without a media change, each of IMPRESSION, PLAY and the four milestones is sent at most once more than its flag allows. For IMPRESSION this holds across media changes too. |
| SessionProperties.ImpressionOnce | kavaplugin/src/main/java/com/kaltura/playkit/plugins/kava/KavaAnalyticsPlugin.java:202-212 | A loaded plugin sends IMPRESSION at most once in its whole life, since a new media does not re-arm it. |
| SessionProperties.MediaOnce | kavaplugin/src/main/java/com/kaltura/playkit/plugins/kava/KavaAnalyticsPlugin.java:160-166 | After a new media, PLAY and each milestone are sent at most once until the next media change. |
| SessionProperties.CrossedNested | kavaplugin/src/main/java/com/kaltura/playkit/plugins/kava/KavaAnalyticsPlugin.java:477-497 | Crossing a quartile means having crossed the ones below it. |
| SessionProperties.NextMarksNested | kavaplugin/src/main/java/com/kaltura/playkit/plugins/kava/KavaAnalyticsPlugin.java:471-497 | Each input keeps the milestone flags nested (75 implies 50 implies 25). |
| SessionProperties.RunNested | kavaplugin/src/main/java/com/kaltura/playkit/plugins/kava/KavaAnalyticsPlugin.java:471-497 | Any run keeps the milestone flags nested. |
| SessionProperties.ReachedInOrder | kavaplugin/src/main/java/com/kaltura/playkit/plugins/kava/KavaAnalyticsPlugin.java:471-497 | With nested flags, the milestones sent are exactly those between the reached level and the crossed level, in ascending order. |
| SessionProperties.PlayingAfterEnded | kavaplugin/src/main/java/com/kaltura/playkit/plugins/kava/KavaAnalyticsPlugin.java:227-260 | PLAYING right after ENDED sends no RESUME; it sends PLAY only if the first play is still pending. |
| SessionProperties.FlavorSwitchedOnce | kavaplugin/src/main/java/com/kaltura/playkit/plugins/kava/KavaAnalyticsPlugin.java:261-267 | A run of reports of one bitrate sends at most one FLAVOR_SWITCHED, none if it is already current, and leaves that bitrate current. |
| SessionProperties.TickView | kavaplugin/src/main/java/com/kaltura/playkit/plugins/kava/KavaAnalyticsPlugin.java:462-469 | A running, unpaused tick sends a VIEW exactly when a view period completes and a beacon can be sent. |
| SessionProperties.ViewCadence | kavaplugin/src/main/java/com/kaltura/playkit/plugins/kava/KavaAnalyticsPlugin.java:443-469 | Over n unpaused ticks from a counter of j seconds, floor((j+n)/10) VIEWs are sent (none when beacons cannot be sent), and the counter ends at (j+n) mod 10 seconds. |
| SessionProperties.TenTicks | kavaplugin/src/main/java/com/kaltura/playkit/plugins/kava/KavaAnalyticsPlugin.java:443-469 | Ten unpaused ticks from a counter of 0 send exactly one VIEW and bring the counter back to 0. |
| SessionProperties.QuietKeptA | kavaplugin/src/main/java/com/kaltura/playkit/plugins/kava/KavaAnalyticsPlugin.java:202-238 | LOADED_METADATA, PLAY, PAUSE and PLAYING leave the start time, buffering mark, per-entry total, config and media alone. |
| SessionProperties.QuietKeptB | kavaplugin/src/main/java/com/kaltura/playkit/plugins/kava/KavaAnalyticsPlugin.java:239-267 | SEEKING, REPLAY, SOURCE_SELECTED, ENDED and PLAYBACK_INFO_UPDATED leave those fields alone. |
| SessionProperties.QuietKeptC | kavaplugin/src/main/java/com/kaltura/playkit/plugins/kava/KavaAnalyticsPlugin.java:268-295 | The track changes, ERROR and other events leave those fields alone. |
| SessionProperties.StateChangedKept | kavaplugin/src/main/java/com/kaltura/playkit/plugins/kava/KavaAnalyticsPlugin.java:302-313 | BUFFERING marks now only after the impression. READY with no mark changes nothing; otherwise it adds the time since the mark to the per-entry total and re-marks now. |
| SessionProperties.LifecycleKept | kavaplugin/src/main/java/com/kaltura/playkit/plugins/kava/KavaAnalyticsPlugin.java:177-191 | Ticks and the application lifecycle calls leave those fields alone. |
| SessionProperties.MediaKept | kavaplugin/src/main/java/com/kaltura/playkit/plugins/kava/KavaAnalyticsPlugin.java:160-166 | A new media clears the start time and the per-entry total, sets the media and keeps the buffering mark. |
| SessionProperties.ConfigKept | kavaplugin/src/main/java/com/kaltura/playkit/plugins/kava/KavaAnalyticsPlugin.java:168-175 | A config update changes only the config among those fields. |
| SessionProperties.ResponseKept | kavaplugin/src/main/java/com/kaltura/playkit/plugins/kava/KavaAnalyticsPlugin.java:330-334 | A response fills a missing start time and otherwise changes nothing. |
| SessionProperties.StepKept | kavaplugin/src/main/java/com/kaltura/playkit/plugins/kava/KavaAnalyticsPlugin.java:160-334 | Every input moves those fields exactly as that transition says. |
| SessionProperties.SessionStartKept | kavaplugin/src/main/java/com/kaltura/playkit/plugins/kava/KavaAnalyticsPlugin.java:330-334 | Between media changes, the first session start time received is the one kept. |
| SessionProperties.SilentWithoutIds | kavaplugin/src/main/java/com/kaltura/playkit/plugins/kava/KavaAnalyticsPlugin.java:315-323 | Without a valid partner id or an entry id, nothing is ever sent until the media or the config changes. |
| SessionProperties.BufferTotalGrows | kavaplugin/src/main/java/com/kaltura/playkit/plugins/kava/KavaAnalyticsPlugin.java:509-516 | While the clock does not go back, the per-entry buffer total of a media never decreases. |

## Left out

- Network delivery: the request builder, the request queue and the `MessageBus` report in the completion callback. A queued request is its parameter map, and a completion is the `Response(body)` input.
- The `java.util.Timer` thread: the timer is the flag `timerRunning`, and each firing of its task is a `TimerTick` input. A tick while no timer runs is dropped. The interleaving of the timer thread with the listener is not modelled.
- Android `Context`, logging, Gson parsing of the configuration (`parsePluginConfig`) and the base64 default referrer (`buildDefaultReferrer`). The configuration arrives already parsed, and the default referrer is a string parameter. A configuration that fails to parse (null) is not modelled.
- The partner-id validity check of `KavaAnalyticsConfig` is a boolean of the configuration, because that class is not part of this model.
- The extraction of error codes from `PKPlayerErrorType` and `PKAdErrorType` is abstracted to an `ErrorType` carrying the code.
- Float arithmetic and formatting are left out.
  - `Float.toString` values (position, buffer times, join time, target position) are symbolic parameter values over integer milliseconds.
  - The quartile test `position / duration >= k/4` is stated exactly under Java float semantics, except for float rounding.
- The host constants `PlayKitManager.CLIENT_TAG` and the `FormatsHelper.StreamFormat` format names are symbolic values (`ClientTag`, `FormatName`), since the host library is not part of this model. The millisecond multiplier of `Consts` is taken to be 1000.
- The player is always present while events arrive, so the null-player branch of `getPlaybackType` is modelled (`Playback.GetPlaybackType`) but never taken by a beacon.
- Integer widths are unbounded. The 32-bit `int` and 64-bit `long` wrap-around of `eventIndex`, `viewEventTimeCounter`, the timestamps and the buffer totals is not modelled.
- BeaconContents: each of the 28 parameters of a beacon is stated by one of the `Beacon…` lemmas: its value, or its absence, as a function of the event, the state and the configuration. The iteration order and key distinctness of a beacon's map follow from `LinkedMaps.PutValid` but are not stated for the whole beacon.
- Kava.KavaAnalyticsPlugin.Tick requires the timer to be running, since the timer task only fires while a timer exists.
