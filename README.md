# Musly platform bridges, modelled in Dafny

Musly is a Flutter music player. Its native side has two jobs. It serves the
catalog to Android Auto and other media-browser clients. It also reports what
the platform knows about Bluetooth outputs, Samsung extras and audio focus.
This project models that native side and proves what it promises.

- **Channel** (`channel.dfy`) holds the values that cross the Flutter channels.
  These are maps from strings to values. The module also has:
  - the event and command envelopes;
  - Kotlin's decimal `toString` and `toIntOrNull`;
  - the typed reads of method-call arguments: absent, given, or of the wrong
    type (a failing cast);
  - the case-insensitive test for a Samsung manufacturer.
- **Catalog** (`catalog.dfy`) has:
  - the media items the service builds from pushed maps, with the per-field
    defaults;
  - the fixed four-node root;
  - the routing of parent ids by the prefixes `album_`, `artist_` and
    `playlist_`.
- **MusicService** (`music_service.dfy`) is the lazy catalog bridge of
  `MusicService`.
  - The class keeps the service's own fields:
    - the four section lists;
    - three per-kind caches;
    - three per-kind pending-result tables;
    - the armed timers;
    - the log of deliveries `(result, items)`;
    - the notified ids;
    - the playback fields.
  - Each method is proved against a transition function on a `Bridge` value
    (`Load`, `Push`, `Refill`, `PartialRefill`, `Fire`, `Advance`).
  - The lemmas about those transitions state the bridge's behaviour:
    - a hit is answered at once, even when the cached list is empty;
    - a miss is pending with one command and one ten-second timer;
    - a push answers the pending result;
    - a timer answers with the empty list;
    - no result is answered twice;
    - a second miss drops the first result forever;
    - timers are never cancelled;
    - every pending entry has a timer due within ten seconds (`Armed`, part
      of the class invariant), so each waiting result is answered once ten
      seconds pass.
- **AutoPlugin** and **AutoMethods** (`auto_plugin.dfy`, `auto_methods.dfy`)
  model `AndroidAutoPlugin`:
  - the event sink and `sendCommand`;
  - the decoding and defaulting of `onMethodCall` arguments;
  - the dispatch to the service, including a list holding a non-map element:
    a top-level push keeps the entries before it and sends no notification,
    and with no service running the call succeeds.
- **BluetoothMedia** (`bluetooth_media.dfy`) models the Android
  `BluetoothMediaHelper`:
  - the AVRCP classification;
  - the device-list maintenance;
  - the A2DP flag;
  - the events.
- **IosBluetooth** (`ios_bluetooth.dfy`) models the iOS plugin:
  - the port classification;
  - the connected query;
  - the route-change edge detector, as written and corrected.
- **Samsung** (`samsung.dfy`) models `SamsungHelper`:
  - the One UI version decode and the SDK fallback table;
  - feature detection;
  - DeX detection and change handling;
  - the audio-output priority;
  - the Routines and Samsung Music queries.
- **SystemPlugin** (`system_plugin.dfy`) models `AndroidSystemPlugin`:
  - the audio-focus state machine;
  - the sequential settings assignment of `initialize` and `updateSettings`;
  - the system info;
  - the events.

Platform probes are parameters of the operations that use them. They include
the route outputs, device classes, the reflective property read, package and
feature checks, settings reads, focus answers and the manufacturer string. A
probe that can throw is a datatype with a case for the exception. Timers are
data: a timer stores its deadline, and `Tick` advances the service's clock.
A timer may fire at any time after its deadline.

## Model

| member | source | states |
|---|---|---|
| Channel.ParseInt | android/app/src/main/kotlin/com/musly/musly/SamsungHelper.kt:174 | a parsed value fits a 32-bit Int and the text starts with an ASCII digit or a sign; anything else is null, as toIntOrNull does for ASCII text |
| Channel.DigitsAreDigits | android/app/src/main/kotlin/com/musly/musly/SamsungHelper.kt:176-178 | the decimal text of a natural number is non-empty, all digits, and denotes that number |
| Channel.DecimalRoundTrip | android/app/src/main/kotlin/com/musly/musly/SamsungHelper.kt:173-178 | every 32-bit Int printed in decimal parses back to itself |
| Channel.Envelope | android/app/src/main/kotlin/com/musly/musly/AndroidAutoPlugin.kt:130-133 | an outgoing map holds the tag key with the name plus every data entry, and a data entry under the tag key wins over the name |
| Channel.Truncate | android/app/src/main/kotlin/com/musly/musly/AndroidAutoPlugin.kt:65-66 | a double read as Long is truncated toward zero, for negative values too, and saturates at the 64-bit Long bounds |
| Channel.ListArg | android/app/src/main/kotlin/com/musly/musly/AndroidAutoPlugin.kt:75 | a list argument that casts keeps the length and order of the elements, each one a map |
| Channel.MapPrefix | android/app/src/main/kotlin/com/musly/musly/MusicService.kt:382-390 | the entries a receiver sees before the first non-map element: a run of maps in order, stopped by a non-map or the end, and the whole list exactly when every element is a map |
| Channel.SamsungSpellings | android/app/src/main/kotlin/com/musly/musly/SamsungHelper.kt:42-44 | examples of the manufacturer test: samsung, Samsung and SAMSUNG pass; Google and "samsung " with a trailing space do not |
| Channel.IsSamsungManufacturer | android/app/src/main/kotlin/com/musly/musly/SamsungHelper.kt:42-44 | the manufacturer is Samsung exactly when it has seven characters, each the letter of "samsung" in lower or upper case; case is folded over ASCII letters only |
| Channel.FoldsToLower | android/app/src/main/kotlin/com/musly/musly/SamsungHelper.kt:43 | a character folds to a letter of "samsung" exactly when it is that letter in either case |
| Catalog.RootItems | android/app/src/main/kotlin/com/musly/musly/MusicService.kt:209-216 | the root has exactly four browsable nodes, RECENT, ALBUMS, ARTISTS, PLAYLISTS in that order, without icon or description |
| Catalog.BranchItems | android/app/src/main/kotlin/com/musly/musly/MusicService.kt:336-378 | a branch push maps the payload element by element, keeping length and order |
| Catalog.SectionItemsSnoc | android/app/src/main/kotlin/com/musly/musly/MusicService.kt:380-430 | section lists are built by appending one mapped item per payload entry |
| Catalog.SectionItemsAt | android/app/src/main/kotlin/com/musly/musly/MusicService.kt:380-430 | the i-th section item is the mapping of the i-th payload entry |
| Catalog.SectionItemsPreserveOrder | android/app/src/main/kotlin/com/musly/musly/MusicService.kt:380-430 | a rebuilt section has the payload's length and order |
| Catalog.IconOnlyForNonEmptyUrl | android/app/src/main/kotlin/com/musly/musly/MusicService.kt:269-271 | a song gets an icon exactly when its artworkUrl is a non-empty string, and the icon is that URL |
| Catalog.BrowsableItem | android/app/src/main/kotlin/com/musly/musly/MusicService.kt:218-233 | a folder item is browsable, carries the given media id, title and subtitle, and has no description and no icon |
| Catalog.BrowsableItemWithArt | android/app/src/main/kotlin/com/musly/musly/MusicService.kt:235-254 | a folder item with artwork is browsable with the given id, title and subtitle and no description; it has an icon exactly when the URL is present and non-empty, and the icon is that URL |
| Catalog.PlayableItem | android/app/src/main/kotlin/com/musly/musly/MusicService.kt:256-277 | a song item is playable, with the artist as subtitle and the album as description; it has an icon exactly when the URL is present and non-empty, and the icon is that URL |
| Catalog.SongDefaults | android/app/src/main/kotlin/com/musly/musly/MusicService.kt:337-345 | a song whose fields are missing or not strings becomes an item with empty id, title, artist and album, no icon, playable |
| Catalog.SongFieldsKept | android/app/src/main/kotlin/com/musly/musly/MusicService.kt:256-277 | string fields of a song map land in id, title, subtitle and description; the rest of the map only affects the icon |
| Catalog.CountSubtitles | android/app/src/main/kotlin/com/musly/musly/MusicService.kt:413-425 | a missing count shows as 0 albums / 0 songs and an integer count as its decimal text |
| Catalog.SongItem | android/app/src/main/kotlin/com/musly/musly/MusicService.kt:256-277 | a song map becomes a playable item with id, title and artist (or "") as media id, title and subtitle, the album as description, and an icon only from a non-empty artwork URL |
| Catalog.AlbumItem | android/app/src/main/kotlin/com/musly/musly/MusicService.kt:394-405 | an album map becomes a browsable node with id album_ plus the rendered id, the name and artist as title and subtitle, and an icon only from a non-empty artwork URL |
| Catalog.ArtistItem | android/app/src/main/kotlin/com/musly/musly/MusicService.kt:407-417 | an artist map becomes a browsable node with id artist_ plus the rendered id, the name as title and the album count (0 when missing) in albums as subtitle, without icon |
| Catalog.PlaylistItem | android/app/src/main/kotlin/com/musly/musly/MusicService.kt:419-430 | a playlist map becomes a browsable node with id playlist_ plus the rendered id, the name as title, the song count (0 when missing) in songs as subtitle, and an icon only from a non-empty artwork URL |
| Catalog.RouteOf | android/app/src/main/kotlin/com/musly/musly/MusicService.kt:181-202 | ROOT and exactly the fixed ids route to the root and their sections; a branch route carries the text after its prefix; an id with no fixed match and none of the three prefixes routes nowhere |
| Catalog.FixedIdsRoute | android/app/src/main/kotlin/com/musly/musly/MusicService.kt:181-186 | ROOT and the four section ids route to themselves |
| Catalog.BranchIdRoundTrip | android/app/src/main/kotlin/com/musly/musly/MusicService.kt:188-199 | a kind prefix followed by an id routes to that kind with exactly that id |
| Catalog.BranchRouteOnlyFromPrefix | android/app/src/main/kotlin/com/musly/musly/MusicService.kt:188-199 | a branch route comes only from its prefix plus id, and album_ takes precedence over artist_, which takes precedence over playlist_ |
| Catalog.UnknownRoute | android/app/src/main/kotlin/com/musly/musly/MusicService.kt:200-202 | an id routes to the empty list exactly when it is no fixed id and has none of the three prefixes |
| Catalog.ChildIdsRouteBack | android/app/src/main/kotlin/com/musly/musly/MusicService.kt:354-423 | the ids the catalog hands out for root, album, artist and playlist nodes route back to the node they came from |
| AutoPlugin.AutoPlugin.constructor | android/app/src/main/kotlin/com/musly/musly/AndroidAutoPlugin.kt:28-36 | a new plugin has no sink and has sent nothing |
| AutoPlugin.AutoPlugin.Listen | android/app/src/main/kotlin/com/musly/musly/AndroidAutoPlugin.kt:29-31 | listening attaches the sink without sending anything |
| AutoPlugin.AutoPlugin.Cancel | android/app/src/main/kotlin/com/musly/musly/AndroidAutoPlugin.kt:33-35 | cancelling detaches the sink without sending anything |
| AutoPlugin.AutoPlugin.SendCommand | android/app/src/main/kotlin/com/musly/musly/AndroidAutoPlugin.kt:130-135 | with a sink one command envelope is sent, without one nothing is sent and nothing fails |
| AutoMethods.Decode | android/app/src/main/kotlin/com/musly/musly/AndroidAutoPlugin.kt:49-113 | an unknown method name decodes to notImplemented, and every push is decoded for the method that names its section or kind |
| AutoMethods.DecodePlayback | android/app/src/main/kotlin/com/musly/musly/AndroidAutoPlugin.kt:59-72 | a playback update is either forwarded or a cast failure, and fails exactly when an argument is present with the wrong type |
| AutoMethods.DecodeSection | android/app/src/main/kotlin/com/musly/musly/AndroidAutoPlugin.kt:74-93 | a top-level update is a push, an aborted push or a cast failure for its own section; a push keeps the list length, an aborted prefix stops short of it |
| AutoMethods.DecodeBranch | android/app/src/main/kotlin/com/musly/musly/AndroidAutoPlugin.kt:94-111 | a branch update is a push, an aborted push or a cast failure for its own kind; a push keeps the list length, and an aborted push has a list with a non-map element |
| AutoMethods.ReplyTo | android/app/src/main/kotlin/com/musly/musly/AndroidAutoPlugin.kt:49-114 | notImplemented exactly for an unknown method, an error exactly for a failed cast or an aborted push in a running service, success otherwise |
| AutoMethods.Dispatch | android/app/src/main/kotlin/com/musly/musly/AndroidAutoPlugin.kt:69-110 | only pushes change the bridge; no call hands out a result, moves the clock or arms a timer, and only a complete top-level push notifies |
| AutoMethods.DispatchKeeps | android/app/src/main/kotlin/com/musly/musly/AndroidAutoPlugin.kt:69-110 | no method call breaks the bridge invariant, revives a dropped result or leaves a pending entry without its timer |
| MusicService.PerKind.With | android/app/src/main/kotlin/com/musly/musly/MusicService.kt:63-69 | updating one kind's table leaves the other two kinds' tables as they were |
| MusicService.PerSection.With | android/app/src/main/kotlin/com/musly/musly/MusicService.kt:58-61 | updating one section leaves the other three as they were |
| MusicService.ResultsAppend | android/app/src/main/kotlin/com/musly/musly/MusicService.kt:284-287 | a delivery adds exactly its result to the set of answered results |
| MusicService.ResultsBelow | android/app/src/main/kotlin/com/musly/musly/MusicService.kt:178 | under the invariant only results already handed out are answered |
| MusicService.Listing | android/app/src/main/kotlin/com/musly/musly/MusicService.kt:181-205 | the listing is missing exactly for a branch whose id is not cached; the root lists its four sections, a section its current list, a cached branch its cached list, an unknown id nothing |
| MusicService.LoadFixedRoutes | android/app/src/main/kotlin/com/musly/musly/MusicService.kt:181-205 | a load of ROOT delivers the root items, of a section id that section's list, of an unmatched id the empty list, all at once and with no pending entry |
| MusicService.Load | android/app/src/main/kotlin/com/musly/musly/MusicService.kt:174-207 | a load hands out one new result and never touches sections, caches, notifications or the clock |
| MusicService.Fetch | android/app/src/main/kotlin/com/musly/musly/MusicService.kt:283-334 | a fetch command goes out exactly when the listing is a miss |
| MusicService.Resolve | android/app/src/main/kotlin/com/musly/musly/MusicService.kt:348 | resolving removes the id from its pending table and, when a result waited there, delivers the items to it; otherwise nothing changes |
| MusicService.Push | android/app/src/main/kotlin/com/musly/musly/MusicService.kt:336-378 | a branch push caches the mapped list under its id and leaves nothing pending there; sections, timers and notifications are untouched |
| MusicService.Fire | android/app/src/main/kotlin/com/musly/musly/MusicService.kt:293-296 | a due timer is consumed and leaves its id unpending; caches and sections are untouched |
| MusicService.Refill | android/app/src/main/kotlin/com/musly/musly/MusicService.kt:380-430 | a top-level push notifies its section id, leaves the other sections alone and touches no cache, pending table, delivery or timer |
| MusicService.PartialRefill | android/app/src/main/kotlin/com/musly/musly/MusicService.kt:380-391 | an interrupted top-level push notifies nothing, leaves the other sections alone and touches no cache, pending table, delivery or timer |
| MusicService.LoadHit | android/app/src/main/kotlin/com/musly/musly/MusicService.kt:284-287 | a hit delivers the listing to the new result and adds no pending entry, no timer and no command |
| MusicService.LoadMiss | android/app/src/main/kotlin/com/musly/musly/MusicService.kt:289-295 | a miss makes the result pending under its id, replacing any earlier one, arms one ten-second timer and fetches with the command and id key of its kind |
| MusicService.PushAnswers | android/app/src/main/kotlin/com/musly/musly/MusicService.kt:336-378 | a branch push caches the mapped list, removes the pending entry for its id and delivers the same list to it, touching no other id |
| MusicService.FireAnswers | android/app/src/main/kotlin/com/musly/musly/MusicService.kt:292-295 | a timer removes what is pending for its id at that moment and delivers the empty list to it, or does nothing |
| MusicService.RefillReplaces | android/app/src/main/kotlin/com/musly/musly/MusicService.kt:380-430 | a top-level push replaces its section in payload order, notifies only its id and touches no cache or pending table |
| MusicService.AnswerKeeps | android/app/src/main/kotlin/com/musly/musly/MusicService.kt:205 | answering at once keeps the invariant, and a dropped result stays dropped |
| MusicService.BindPending | android/app/src/main/kotlin/com/musly/musly/MusicService.kt:289 | after a pending binding every pending result is the new one or was pending before |
| MusicService.RemovePending | android/app/src/main/kotlin/com/musly/musly/MusicService.kt:348 | removing a pending entry makes no result pending |
| MusicService.EnlistKeeps | android/app/src/main/kotlin/com/musly/musly/MusicService.kt:289 | registering a miss keeps the invariant and drops the result it overwrites |
| MusicService.ResolveKeeps | android/app/src/main/kotlin/com/musly/musly/MusicService.kt:348 | answering a pending entry keeps the invariant |
| MusicService.LoadKeeps | android/app/src/main/kotlin/com/musly/musly/MusicService.kt:174-207 | a load keeps the invariant, and a second miss drops the first result |
| MusicService.PushKeeps | android/app/src/main/kotlin/com/musly/musly/MusicService.kt:336-378 | a branch push keeps the invariant |
| MusicService.RefillKeeps | android/app/src/main/kotlin/com/musly/musly/MusicService.kt:380-430 | a top-level push keeps the invariant |
| MusicService.PartialRefillReplaces | android/app/src/main/kotlin/com/musly/musly/MusicService.kt:380-391 | a top-level push interrupted by a non-map element leaves its section holding the items of the entries before it, in order, and notifies nothing |
| MusicService.PartialRefillKeeps | android/app/src/main/kotlin/com/musly/musly/MusicService.kt:380-391 | an interrupted top-level push keeps the invariant |
| MusicService.FireKeeps | android/app/src/main/kotlin/com/musly/musly/MusicService.kt:292-295 | a timer keeps the invariant, so each result is answered at most once |
| MusicService.PushInTime | android/app/src/main/kotlin/com/musly/musly/MusicService.kt:289-295 | a push within the timeout answers the waiting result, and the later timer answers nothing |
| MusicService.TimeoutAnswersEmpty | android/app/src/main/kotlin/com/musly/musly/MusicService.kt:292-295 | an unanswered miss gets the empty list after ten seconds, and a late push fills the cache but answers nothing |
| MusicService.LoadArmed | android/app/src/main/kotlin/com/musly/musly/MusicService.kt:289-295 | a load keeps every pending entry covered by a timer due within ten seconds: a miss arms one for the entry it adds |
| MusicService.ResolveArmed | android/app/src/main/kotlin/com/musly/musly/MusicService.kt:348 | answering a pending entry leaves every remaining entry with its timer |
| MusicService.PushArmed | android/app/src/main/kotlin/com/musly/musly/MusicService.kt:336-378 | a branch push leaves every remaining pending entry with its timer |
| MusicService.FireArmed | android/app/src/main/kotlin/com/musly/musly/MusicService.kt:292-295 | a due timer removes only its own entry, so every other pending entry keeps a timer |
| MusicService.AdvanceArmed | android/app/src/main/kotlin/com/musly/musly/MusicService.kt:293 | the clock moving on keeps every pending entry's timer within ten seconds of now |
| MusicService.RefillArmed | android/app/src/main/kotlin/com/musly/musly/MusicService.kt:380-430 | a top-level push leaves pending entries and timers covered |
| MusicService.PartialRefillArmed | android/app/src/main/kotlin/com/musly/musly/MusicService.kt:380-391 | an interrupted top-level push leaves pending entries and timers covered |
| MusicService.PendingTimesOut | android/app/src/main/kotlin/com/musly/musly/MusicService.kt:292-295 | from any armed state, every pending entry has a timer that is due once ten seconds pass, and firing it answers the entry's result with the empty list |
| MusicService.CachedEmptyIsHit | android/app/src/main/kotlin/com/musly/musly/MusicService.kt:284-287 | a cached empty list is a hit: delivered at once, no command, no pending entry |
| MusicService.SecondMissDropsFirst | android/app/src/main/kotlin/com/musly/musly/MusicService.kt:289 | a second miss before any answer drops the first result for good, and a push answers only the second |
| MusicService.OverwrittenMissTimesOutEarly | android/app/src/main/kotlin/com/musly/musly/MusicService.kt:292-295 | timers are never cancelled: the first miss's timer answers the second result with the empty list at the first deadline |
| MusicService.TransportCommand | android/app/src/main/kotlin/com/musly/musly/MusicService.kt:585-615 | each transport control sends its command; seek carries the position, playFromMediaId the id, and a missing media id sends nothing |
| MusicService.MusicService.constructor | android/app/src/main/kotlin/com/musly/musly/MusicService.kt:48-69 | a new service has empty sections, caches, pending tables and timers, and has delivered nothing |
| MusicService.MusicService.SetPending | android/app/src/main/kotlin/com/musly/musly/MusicService.kt:67-69 | one kind's pending table is replaced and the others kept |
| MusicService.MusicService.SetCache | android/app/src/main/kotlin/com/musly/musly/MusicService.kt:63-65 | one kind's cache is replaced and the others kept |
| MusicService.MusicService.SetSection | android/app/src/main/kotlin/com/musly/musly/MusicService.kt:58-61 | one section list is replaced and the others kept |
| MusicService.MusicService.LoadChildren | android/app/src/main/kotlin/com/musly/musly/MusicService.kt:174-207 | the service moves as the load transition says, keeps its invariant and sends the fetch command exactly on a miss |
| MusicService.MusicService.LoadBranch | android/app/src/main/kotlin/com/musly/musly/MusicService.kt:283-334 | a branch load is a hit or a miss by its cache |
| MusicService.MusicService.Miss | android/app/src/main/kotlin/com/musly/musly/MusicService.kt:289-295 | a miss registers the result, arms the timer and sends the fetch command |
| MusicService.MusicService.Deliver | android/app/src/main/kotlin/com/musly/musly/MusicService.kt:205 | the listing is delivered to a fresh result |
| MusicService.MusicService.Register | android/app/src/main/kotlin/com/musly/musly/MusicService.kt:289 | a fresh result becomes pending under its kind and id |
| MusicService.MusicService.ResolvePending | android/app/src/main/kotlin/com/musly/musly/MusicService.kt:348 | a pending entry is removed and answered with the list |
| MusicService.MusicService.UpdateBranch | android/app/src/main/kotlin/com/musly/musly/MusicService.kt:336-378 | the service moves as the push transition says, keeps its invariant and leaves playback state alone |
| MusicService.MusicService.StoreAndResolve | android/app/src/main/kotlin/com/musly/musly/MusicService.kt:347-348 | the list is cached, then the pending entry is answered |
| MusicService.MusicService.FireTimer | android/app/src/main/kotlin/com/musly/musly/MusicService.kt:292-295 | the service moves as the timer transition says and keeps its invariant |
| MusicService.MusicService.Tick | android/app/src/main/kotlin/com/musly/musly/MusicService.kt:293 | the clock advances and the service keeps its invariant |
| MusicService.MusicService.UpdateSection | android/app/src/main/kotlin/com/musly/musly/MusicService.kt:380-430 | the service moves as the top-level push transition says, keeps its invariant and leaves playback state alone |
| MusicService.MusicService.FillAndNotify | android/app/src/main/kotlin/com/musly/musly/MusicService.kt:380-430 | the section is rebuilt and its id notified |
| MusicService.MusicService.AbortSection | android/app/src/main/kotlin/com/musly/musly/MusicService.kt:380-391 | the service moves as the interrupted push says: the section is refilled with the prefix, no notification, invariant and playback kept |
| MusicService.MusicService.FillSection | android/app/src/main/kotlin/com/musly/musly/MusicService.kt:381-390 | the clear-and-add loop leaves the section equal to the mapped payload |
| MusicService.MusicService.UpdatePlaybackState | android/app/src/main/kotlin/com/musly/musly/MusicService.kt:432-449 | the eight playback fields take the given values |
| MusicService.MusicService.OnTransport | android/app/src/main/kotlin/com/musly/musly/MusicService.kt:585-615 | a transport control sends its command through the plugin exactly when the sink is attached |
| AutoMethods.BranchArguments | android/app/src/main/kotlin/com/musly/musly/AndroidAutoPlugin.kt:94-111 | a branch update is forwarded exactly when the id and the list are absent or well typed (a missing id becomes "", a missing list empty); a well-typed id with a list holding a non-map element is an aborted push; any other value fails the cast |
| AutoMethods.SectionArguments | android/app/src/main/kotlin/com/musly/musly/AndroidAutoPlugin.kt:74-93 | a top-level update forwards its list or, when absent, the empty list; a list holding a non-map element is forwarded up to that element as an aborted push; any other value fails the cast |
| AutoMethods.PlaybackArguments | android/app/src/main/kotlin/com/musly/musly/AndroidAutoPlugin.kt:59-72 | updatePlaybackState defaults title, artist and album to "", duration and position to 0 and playing to false, keeps songId and artworkUrl nullable, takes present strings and booleans as they are and present numbers through toLong() (truncating doubles) |
| AutoMethods.PlaybackCasts | android/app/src/main/kotlin/com/musly/musly/AndroidAutoPlugin.kt:59-67 | updatePlaybackState fails exactly when one of its eight arguments is present with the wrong type, and is forwarded otherwise |
| AutoMethods.OnMethodCall | android/app/src/main/kotlin/com/musly/musly/AndroidAutoPlugin.kt:49-114 | the reply follows the decoded call and whether a service runs (an aborted push fails only inside a running service); with a service its state moves as the call says, and an unknown method, a failing cast or an aborted branch push changes nothing |
| AutoMethods.Perform | android/app/src/main/kotlin/com/musly/musly/AndroidAutoPlugin.kt:69-110 | a decoded call drives exactly the matching service update, an aborted top-level push the partial refill |
| BluetoothMedia.AvrcpVersion | android/app/src/main/kotlin/com/musly/musly/BluetoothMediaHelper.kt:185-202 | the version is 13, 14 or 16; at least 14 exactly for the audio-video major class, and 16 exactly when also on SDK O or later |
| BluetoothMedia.InfoOf | android/app/src/main/kotlin/com/musly/musly/BluetoothMediaHelper.kt:162-182 | a device info keeps the address, names an unnamed device "Unknown Device", is always connected with AVRCP, and supports art and browsing exactly from version 14 |
| BluetoothMedia.ToMap | android/app/src/main/kotlin/com/musly/musly/BluetoothMediaHelper.kt:410-418 | the info map has exactly the seven keys, each holding the info field of its name |
| BluetoothMedia.Infos | android/app/src/main/kotlin/com/musly/musly/BluetoothMediaHelper.kt:149-153 | one info per reported device, in order |
| BluetoothMedia.FindFirst | android/app/src/main/kotlin/com/musly/musly/BluetoothMediaHelper.kt:224 | the lookup finds an entry exactly when one has the address, and returns the first |
| BluetoothMedia.Find | android/app/src/main/kotlin/com/musly/musly/BluetoothMediaHelper.kt:224 | a found entry is in the list and has the address |
| BluetoothMedia.Without | android/app/src/main/kotlin/com/musly/musly/BluetoothMediaHelper.kt:226 | removal never grows the list, and every survivor is an entry of the list with another address |
| BluetoothMedia.WithoutMembers | android/app/src/main/kotlin/com/musly/musly/BluetoothMediaHelper.kt:226 | removal keeps exactly the entries with another address, and shrinks a list that had the address |
| BluetoothMedia.WithoutAbsentIsIdentity | android/app/src/main/kotlin/com/musly/musly/BluetoothMediaHelper.kt:226 | removing an address that is absent leaves the list as it was |
| BluetoothMedia.WithoutKeepsOrder | android/app/src/main/kotlin/com/musly/musly/BluetoothMediaHelper.kt:226 | removal distributes over concatenation, so the survivors keep their relative order |
| BluetoothMedia.BluetoothMedia.constructor | android/app/src/main/kotlin/com/musly/musly/BluetoothMediaHelper.kt:45-61 | a new helper has no proxy, the A2DP flag off, no devices and no sink |
| BluetoothMedia.BluetoothMedia.IsA2dpConnected | android/app/src/main/kotlin/com/musly/musly/BluetoothMediaHelper.kt:297-299 | connected exactly when the A2DP flag is set and the list is non-empty |
| BluetoothMedia.BluetoothMedia.ConnectedDeviceMaps | android/app/src/main/kotlin/com/musly/musly/BluetoothMediaHelper.kt:290-292 | one map per connected device, in order |
| BluetoothMedia.BluetoothMedia.SetEventSink | android/app/src/main/kotlin/com/musly/musly/BluetoothMediaHelper.kt:140-142 | the sink is the one given |
| BluetoothMedia.BluetoothMedia.SendEvent | android/app/src/main/kotlin/com/musly/musly/BluetoothMediaHelper.kt:315-322 | with a sink one event envelope is sent, otherwise nothing |
| BluetoothMedia.BluetoothMedia.Refresh | android/app/src/main/kotlin/com/musly/musly/BluetoothMediaHelper.kt:145-159 | the list is cleared and refilled with exactly one info per proxy-reported device; with no proxy or a failing report it stays empty |
| BluetoothMedia.BluetoothMedia.OnServiceConnected | android/app/src/main/kotlin/com/musly/musly/BluetoothMediaHelper.kt:98-104 | an A2DP proxy connection records the proxy and refreshes; another profile changes nothing |
| BluetoothMedia.BluetoothMedia.OnServiceDisconnected | android/app/src/main/kotlin/com/musly/musly/BluetoothMediaHelper.kt:106-111 | an A2DP proxy disconnection forgets the proxy |
| BluetoothMedia.BluetoothMedia.OnConnectionStateChanged | android/app/src/main/kotlin/com/musly/musly/BluetoothMediaHelper.kt:84-89 | the flag becomes state == STATE_CONNECTED and the list is refreshed, so the helper reports connected exactly when that state holds and some device is reported |
| BluetoothMedia.BluetoothMedia.OnBecomingNoisy | android/app/src/main/kotlin/com/musly/musly/BluetoothMediaHelper.kt:90-92 | a noisy broadcast sends one becomingNoisy event when a sink is attached |
| BluetoothMedia.BluetoothMedia.HandleDeviceConnected | android/app/src/main/kotlin/com/musly/musly/BluetoothMediaHelper.kt:205-218 | after the refresh, a deviceConnected event carries the entry with the address if there is one, and nothing is sent otherwise |
| BluetoothMedia.BluetoothMedia.HandleDeviceDisconnected | android/app/src/main/kotlin/com/musly/musly/BluetoothMediaHelper.kt:221-231 | a known address has all its entries removed and one deviceDisconnected event carries the first; an unknown one changes nothing |
| BluetoothMedia.BluetoothMedia.RemoveAddress | android/app/src/main/kotlin/com/musly/musly/BluetoothMediaHelper.kt:226 | the list loses exactly the entries with the address |
| BluetoothMedia.BluetoothMedia.Dispose | android/app/src/main/kotlin/com/musly/musly/BluetoothMediaHelper.kt:324-335 | the proxy is dropped and the list is empty, so the helper no longer reports A2DP as connected |
| BluetoothMedia.DisconnectRemovesAddress | android/app/src/main/kotlin/com/musly/musly/BluetoothMediaHelper.kt:224-226 | after a disconnect no entry has the address, every other entry stays, and the list is shorter |
| IosBluetooth.Entry | ios/Runner/iOSBluetoothPlugin.swift:176-202 | Bluetooth and car ports give an entry and other ports none; Bluetooth entries have the port name, version 14 and browsing only for A2DP; car entries are named CarPlay with version 16 and browsing |
| IosBluetooth.EntriesNonEmptyIffConnected | ios/Runner/iOSBluetoothPlugin.swift:168-219 | the refreshed list is non-empty exactly when isBluetoothConnected holds for the same route |
| IosBluetooth.EntriesCount | ios/Runner/iOSBluetoothPlugin.swift:173-203 | the list has one entry per counted output, each coming from an output of the route |
| IosBluetooth.Entries | ios/Runner/iOSBluetoothPlugin.swift:168-204 | the refreshed list has at most one entry per output, each marked connected and AVRCP-capable |
| IosBluetooth.RouteEvents | ios/Runner/iOSBluetoothPlugin.swift:143-159 | at most one event, and one exactly on a false-to-true edge with a device for newDeviceAvailable or a true-to-false edge with a device for oldDeviceUnavailable |
| IosBluetooth.AsWrittenSendsNothing | ios/Runner/iOSBluetoothPlugin.swift:139-156 | with the two queries reading the same route no route change sends an event |
| IosBluetooth.HeadsetConnectCounterexample | ios/Runner/iOSBluetoothPlugin.swift:139-149 | a headset appearing sends nothing as written, though the edge from an empty list sends deviceConnected |
| IosBluetooth.HeadsetDisconnectCounterexample | ios/Runner/iOSBluetoothPlugin.swift:151-156 | a headset going away sends nothing with the list after the refresh, and one event with the device from before |
| IosBluetooth.IosBluetooth.constructor | ios/Runner/iOSBluetoothPlugin.swift:19-20 | a new plugin has no devices, is not monitoring and has no sink |
| IosBluetooth.IosBluetooth.SetEventSink | ios/Runner/iOSBluetoothPlugin.swift:98-106 | the sink is the one given |
| IosBluetooth.IosBluetooth.SendEvent | ios/Runner/iOSBluetoothPlugin.swift:304-313 | with a sink one event envelope is sent, data winning on a key clash |
| IosBluetooth.IosBluetooth.Refresh | ios/Runner/iOSBluetoothPlugin.swift:168-204 | the list becomes the entries of the current route, in order |
| IosBluetooth.IosBluetooth.IsBluetoothConnected | ios/Runner/iOSBluetoothPlugin.swift:206-219 | true exactly when some output is A2DP, HFP, LE or car audio |
| IosBluetooth.IosBluetooth.Initialize | ios/Runner/iOSBluetoothPlugin.swift:109-114 | the list is refreshed and monitoring is on |
| IosBluetooth.IosBluetooth.HandleRouteChange | ios/Runner/iOSBluetoothPlugin.swift:132-161 | as written: an unreadable reason changes nothing, any other refreshes the list, and no event is ever sent |
| IosBluetooth.IosBluetooth.HandleRouteChangeCorrected | ios/Runner/iOSBluetoothPlugin.swift:132-161 | the edge is taken from the list before and the route after; a connect edge sends the first new device and a disconnect edge the first device from before |
| IosBluetooth.IosBluetooth.HandleMediaServerReset | ios/Runner/iOSBluetoothPlugin.swift:163-166 | the list is refreshed |
| IosBluetooth.IosBluetooth.DeviceInfo | ios/Runner/iOSBluetoothPlugin.swift:221-223 | the device info is the first entry, and absent exactly when the list is empty |
| IosBluetooth.IosBluetooth.Dispose | ios/Runner/iOSBluetoothPlugin.swift:315-320 | the list is empty and monitoring is off |
| Samsung.SdkVersionName | android/app/src/main/kotlin/com/musly/musly/SamsungHelper.kt:182-191 | the fallback is empty exactly below SDK 28 and 6.0 from SDK 34 |
| Samsung.OneUIVersion | android/app/src/main/kotlin/com/musly/musly/SamsungHelper.kt:165-196 | empty on a non-Samsung device or a failing read; a positive property gives major.minor; otherwise the SDK table |
| Samsung.OneUIDecode | android/app/src/main/kotlin/com/musly/musly/SamsungHelper.kt:173-179 | a property holding v > 0 gives v/10000, a dot and (v%10000)/100, with integer division |
| Samsung.VersionParts | android/app/src/main/kotlin/com/musly/musly/SamsungHelper.kt:176-178 | a version encoded as major, two minor digits and two patch digits decodes to major.minor |
| Samsung.OneUIVersionEmpty | android/app/src/main/kotlin/com/musly/musly/SamsungHelper.kt:165-196 | the version is empty exactly for a non-Samsung device, a failing read, or no positive property below SDK 28 |
| Samsung.DetectFeatures | android/app/src/main/kotlin/com/musly/musly/SamsungHelper.kt:109-140 | each of the nine fields is the probe or probe combination the code tests (Good Lock, Samsung Music and Routines by their package probes), isOneUIVersion says the version is non-empty, and isDexMode copies the flag passed in |
| Samsung.FeaturesMap | android/app/src/main/kotlin/com/musly/musly/SamsungHelper.kt:507-517 | the map has exactly the nine feature keys, each holding the feature of its name, and so no isSamsungDevice key |
| Samsung.FeaturesMapInjective | android/app/src/main/kotlin/com/musly/musly/SamsungHelper.kt:507-517 | two feature records with the same map are equal |
| Samsung.DexModeNow | android/app/src/main/kotlin/com/musly/musly/SamsungHelper.kt:198-212 | DeX is on exactly when the configuration reads and its UI-mode type is desk or the setting reads "1" |
| Samsung.TopRank | android/app/src/main/kotlin/com/musly/musly/SamsungHelper.kt:333-340 | the top rank bounds every device's rank and is reached by one when positive |
| Samsung.OutputIsTopRank | android/app/src/main/kotlin/com/musly/musly/SamsungHelper.kt:331-340 | from SDK M the output is the highest-priority device type present: bluetooth, then wired, then usb, then speaker |
| Samsung.CurrentAudioOutput | android/app/src/main/kotlin/com/musly/musly/SamsungHelper.kt:331-346 | the output is one of four names; from SDK M bluetooth exactly when an A2DP device is present and speaker exactly when none of the five known types is; before M bluetooth and speaker follow the two legacy flags and usb never occurs |
| Samsung.AddingDeviceNeverDemotes | android/app/src/main/kotlin/com/musly/musly/SamsungHelper.kt:333-340 | adding an output device never lowers the reported output's priority |
| Samsung.AudioSettings | android/app/src/main/kotlin/com/musly/musly/SamsungHelper.kt:315-374 | the settings map has three keys: the current output as given, and Dolby Atmos and Adapt Sound on exactly when their setting reads 1 |
| Samsung.SamsungHelper.constructor | android/app/src/main/kotlin/com/musly/musly/SamsungHelper.kt:42-52 | the helper knows whether the manufacturer is Samsung and starts with DeX off, no features, no receiver and no sink |
| Samsung.SamsungHelper.SetEventSink | android/app/src/main/kotlin/com/musly/musly/SamsungHelper.kt:105-107 | the sink is the one given |
| Samsung.SamsungHelper.SendEvent | android/app/src/main/kotlin/com/musly/musly/SamsungHelper.kt:389-396 | with a sink one event envelope is sent, otherwise nothing |
| Samsung.SamsungHelper.Initialize | android/app/src/main/kotlin/com/musly/musly/SamsungHelper.kt:75-103 | as written: a non-Samsung device gets only isSamsungDevice false and nothing registered; a failing registration gives isSamsungDevice true; otherwise features are detected with the old DeX flag before it is read |
| Samsung.SamsungHelper.InitializeCorrected | android/app/src/main/kotlin/com/musly/musly/SamsungHelper.kt:75-103 | with the DeX flag read first, the features and their map agree with the flag |
| Samsung.SamsungHelper.HandleDexModeChange | android/app/src/main/kotlin/com/musly/musly/SamsungHelper.kt:221-227 | the flag and the features' copy both become the new mode, and dexModeEnter or dexModeExit is sent to match |
| Samsung.SamsungHelper.CheckDexMode | android/app/src/main/kotlin/com/musly/musly/SamsungHelper.kt:214-219 | a change is handled only when the mode read differs from the flag, and otherwise nothing changes |
| Samsung.SamsungHelper.OnReceive | android/app/src/main/kotlin/com/musly/musly/SamsungHelper.kt:59-73 | a configuration change re-checks DeX and, only when the mode changed, updates the cached features and sends the event; the enter and exit actions always set the flag, copy it into the features and send their event to an attached sink; other actions change nothing; agreement of features and flag is kept |
| Samsung.SamsungHelper.RegisterWithRoutines | android/app/src/main/kotlin/com/musly/musly/SamsungHelper.kt:279-284 | true exactly when features exist and routines are supported |
| Samsung.SamsungHelper.MusicCompatibility | android/app/src/main/kotlin/com/musly/musly/SamsungHelper.kt:296-302 | canShare is always true and canImportPlaylists false; installed is false without features |
| Samsung.SamsungHelper.Dispose | android/app/src/main/kotlin/com/musly/musly/SamsungHelper.kt:398-405 | the receiver is unregistered |
| Samsung.StaleDexCounterexample | android/app/src/main/kotlin/com/musly/musly/SamsungHelper.kt:93-94 | a helper starting in DeX reports isDexMode false in its features while its flag is true |
| SystemPlugin.SettingArgs | android/app/src/main/kotlin/com/musly/musly/AndroidSystemPlugin.kt:107-111 | the five setting arguments are read in their fixed order as Boolean casts |
| SystemPlugin.FirstMistyped | android/app/src/main/kotlin/com/musly/musly/AndroidSystemPlugin.kt:107-111 | the first setting argument that fails its cast, or 5 when none does |
| SystemPlugin.AssignedReached | android/app/src/main/kotlin/com/musly/musly/AndroidSystemPlugin.kt:148-152 | every setting before the first failing cast becomes its argument, or the fallback when absent |
| SystemPlugin.AssignedNotReached | android/app/src/main/kotlin/com/musly/musly/AndroidSystemPlugin.kt:148-152 | the failing setting and all after it keep their old value |
| SystemPlugin.FieldsDetermine | android/app/src/main/kotlin/com/musly/musly/AndroidSystemPlugin.kt:40-44 | the five settings determine the record |
| SystemPlugin.InitializeDefaultsOn | android/app/src/main/kotlin/com/musly/musly/AndroidSystemPlugin.kt:107-111 | initialize with no setting arguments turns all five on |
| SystemPlugin.UpdateKeepsMissing | android/app/src/main/kotlin/com/musly/musly/AndroidSystemPlugin.kt:148-152 | updateSettings keeps the previous value of each missing key and takes each given one |
| SystemPlugin.FailingCastStops | android/app/src/main/kotlin/com/musly/musly/AndroidSystemPlugin.kt:148-152 | a setting of the wrong type stops the assignment there: it and the later settings keep their values |
| SystemPlugin.UpdateWithNothing | android/app/src/main/kotlin/com/musly/musly/AndroidSystemPlugin.kt:148-152 | updateSettings with no arguments changes nothing |
| SystemPlugin.UpdateIdempotent | android/app/src/main/kotlin/com/musly/musly/AndroidSystemPlugin.kt:148-152 | repeating an update with the same arguments changes nothing more |
| SystemPlugin.FocusEvent | android/app/src/main/kotlin/com/musly/musly/AndroidSystemPlugin.kt:54-71 | exactly the four focus codes produce an event |
| SystemPlugin.SystemPlugin.constructor | android/app/src/main/kotlin/com/musly/musly/AndroidSystemPlugin.kt:34-44 | a new plugin has no focus, all settings on, no receiver and no sink |
| SystemPlugin.SystemPlugin.SetEventSink | android/app/src/main/kotlin/com/musly/musly/AndroidSystemPlugin.kt:82-88 | the sink is the one given |
| SystemPlugin.SystemPlugin.SendEvent | android/app/src/main/kotlin/com/musly/musly/AndroidSystemPlugin.kt:242-249 | with a sink one envelope under the command key is sent, otherwise nothing |
| SystemPlugin.SystemPlugin.AssignSettings | android/app/src/main/kotlin/com/musly/musly/AndroidSystemPlugin.kt:148-152 | the settings become the sequential assignment and the call succeeds exactly when no cast fails |
| SystemPlugin.Assigned | android/app/src/main/kotlin/com/musly/musly/AndroidSystemPlugin.kt:107-111 | a failing first cast leaves the settings as they were, and all arguments missing gives the fallback settings |
| SystemPlugin.SystemPlugin.Initialize | android/app/src/main/kotlin/com/musly/musly/AndroidSystemPlugin.kt:106-115 | missing settings default to true and the noisy receiver is registered when the call succeeds with a context |
| SystemPlugin.SystemPlugin.UpdateSettings | android/app/src/main/kotlin/com/musly/musly/AndroidSystemPlugin.kt:147-154 | missing settings keep their current value |
| SystemPlugin.SystemPlugin.OnFocusChange | android/app/src/main/kotlin/com/musly/musly/AndroidSystemPlugin.kt:54-71 | GAIN sets the flag, LOSS clears it, the transient losses leave it; each known code sends its event |
| SystemPlugin.SystemPlugin.RequestAudioFocus | android/app/src/main/kotlin/com/musly/musly/AndroidSystemPlugin.kt:185-215 | true with the flag untouched when focus handling is off; false without an audio manager; otherwise the flag becomes granted and is returned |
| SystemPlugin.SystemPlugin.AbandonAudioFocus | android/app/src/main/kotlin/com/musly/musly/AndroidSystemPlugin.kt:217-228 | the flag is false when an audio manager exists, and untouched otherwise |
| SystemPlugin.SystemPlugin.OnNoisy | android/app/src/main/kotlin/com/musly/musly/AndroidSystemPlugin.kt:46-52 | a noisy broadcast sends one becomingNoisy command when a sink is attached |
| SystemPlugin.SystemPlugin.SystemInfo | android/app/src/main/kotlin/com/musly/musly/AndroidSystemPlugin.kt:230-240 | the info has exactly the seven keys: manufacturer, model, brand, SDK number and release from the build, isSamsung by the case-insensitive test, and hasAudioFocus equal to the flag |
| SystemPlugin.SystemPlugin.Dispose | android/app/src/main/kotlin/com/musly/musly/AndroidSystemPlugin.kt:251-259 | the receiver is unregistered when there is a context and focus is abandoned |

## Left out

- Scheduling. Running `onLoadChildren`'s coroutine on the main dispatcher is
  modelled as running it at once, and `delay(10000)` as a timer event. The
  `handler.post` / `DispatchQueue.main.async` hops of `sendEvent` are modelled
  as sending at once, and so is the device-connected event that
  `BluetoothMediaHelper` sends through `handler.postDelayed(…, 1000)`: the
  model does not capture the one-second delay before it. Threads are not modelled: everything runs on one
  main thread.
- Media-browser result objects. Each `Result` is modelled by a number, and
  `sendResult` by a record in the delivery log.
- MediaSession, notifications and the foreground service: `showNotification`,
  `updateMediaSessionMetadata`, `updateMediaSessionPlaybackState`,
  `initializeMediaSession`, `onGetRoot` and `MediaButtonReceiver`. These are
  platform calls; `updatePlaybackState` stores its eight fields and no more.
- Artwork download and bitmap decoding are network I/O.
- Floating point and number rendering.
  - `setVolume` scaling and the position and duration doubles of the iOS
    now-playing info are not modelled.
  - A `Real` argument is truncated toward zero and saturated at the `Long`
    bounds (`Channel.Truncate`), but its text is not used anywhere.
  - Lists and maps interpolated into an id render as "".
- Channel.Truncate: a `Real` is a finite number, so NaN and the infinities
  cannot be passed. `Double.toLong()` maps NaN to 0 and the infinities to the
  `Long` bounds; the model does not capture those three inputs.
- Channel.ParseInt: only ASCII digits are read. `toIntOrNull` also accepts
  the other Unicode decimal digits (Arabic-Indic, fullwidth and so on); the
  model reads a property holding them as not a number.
- Channel.IsSamsungManufacturer: `equals(ignoreCase = true)` is modelled by
  ASCII case folding only.
- `startService` / `stopService` in `AndroidAutoPlugin` only start or stop an
  Android service by intent. They are decoded as successful calls that
  change no state.
- The `onMethodCall` dispatch of `BluetoothMediaHelper`, `SamsungHelper` and
  `AndroidSystemPlugin`, and the `handle` dispatch of the iOS plugin. The
  model covers the operations these forward to.
- The helpers' playback and artwork fields. This covers
  `updatePlaybackState`, `updatePosition` and `updateAlbumArt` in
  `BluetoothMediaHelper` and the iOS plugin, plus the Samsung
  `updatePlaybackState` / `updateEdgePanel` stores. They feed only the
  now-playing UI.
- `BluetoothMediaHelper.initialize` and the iOS `setupNotifications` do
  receiver, observer and proxy registration only.
- Samsung stubs that only log or return a constant:
  - `updateEdgePanelInternal`
  - `showEdgeLighting`
  - `optimizeForDex`
  - `configureSamsungAudio`
  - `updateSoundAssistant`
  - `registerAsDefaultMusicPlayer`
- Samsung.AudioSettings: the outer catch of `getSamsungAudioSettings`,
  which returns an empty map, is not modelled. The audio output is an input
  here, so no modelled step can throw.
- `AndroidSystemPlugin`:
  - the `updatePlaybackState` forwarding to `MusicService` and its
    `startMusicService` call;
  - `setNotificationColor`;
  - `isSamsungDevice` and `getAndroidSdkVersion`, which only return a build
    property;
  - the `AudioFocusRequest` object and the SDK split between the two request
    APIs. The result is reduced to the platform's answer code.
- SystemPlugin.SystemPlugin.AssignSettings: the five settings fields of the
  plugin are kept as one record field, `settings`. `Field` reads them one at
  a time.
- MusicService.MusicService: its ghost field `owner` records the kind and
  id each result was made pending under. It is bookkeeping for the invariant,
  not service state.
- iOSSystemPlugin.swift is not part of this model. It is remote-command and
  notification wiring plus float conversions.
- Plugin registration glue is not part of this model: BluetoothAvrcpPlugin,
  SamsungIntegrationPlugin, MainActivity, AutoStartReceiver, AppDelegate and
  the generated registrant.

## Findings

| source | as written | input that shows it | evidently intended | confidence | as-written member | corrected member |
|---|---|---|---|---|---|---|
| ios/Runner/iOSBluetoothPlugin.swift:139-149 | `wasBluetoothConnected` and `isBluetoothConnectedNow` both query the current route, which already shows the change, so `deviceConnected` is never sent | a route change `newDeviceAvailable` to one A2DP headset, from an empty device list | compare with the state before the change (the device list from before the refresh) and send `deviceConnected` with the new first device | not executed | IosBluetooth.HeadsetConnectCounterexample | IosBluetooth.IosBluetooth.HandleRouteChangeCorrected |
| ios/Runner/iOSBluetoothPlugin.swift:151-156 | `deviceDisconnected` carries the first device after the refresh, and that list is empty once nothing is connected, so it is never sent | a route change `oldDeviceUnavailable` removing the only A2DP headset | report the device remembered from before the refresh | not executed | IosBluetooth.HeadsetDisconnectCounterexample | IosBluetooth.IosBluetooth.HandleRouteChangeCorrected |
| android/app/src/main/kotlin/com/musly/musly/SamsungHelper.kt:93-94 | `detectFeatures()` copies `isDexMode` before `checkDexModeInitial()` sets it, so the features returned by `initialize` say DeX is off | a Samsung device started in DeX (UI mode type desk) | read the DeX mode first, so the reported features agree with the flag | not executed | Samsung.StaleDexCounterexample | Samsung.SamsungHelper.InitializeCorrected |
