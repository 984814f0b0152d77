/**
 * `AndroidAutoPlugin.onMethodCall`: how a method call from the app is read
 * (which arguments, with which defaults) and forwarded to the running media
 * service, if there is one.
 */
module AutoMethods {
  import opened Channel
  import opened Catalog
  import MusicService

  /** A method call with its arguments read. `CastFailure` is a call one of
      whose arguments has the wrong type: `call.argument<T>` throws, and the
      channel answers with an error. A list cast checks only that the value is
      a list, so a list holding an element that is not a map reaches the
      service: `AbortedSectionPush` keeps the maps before that element, which
      the service adds before the element's cast throws; `AbortedBranchPush`
      throws while the service maps the list, before anything is stored. */
  datatype Call =
    | StartService
    | StopService
    | PlaybackState(songId: Option<string>, title: string, artist: string, album: string,
                    artworkUrl: Option<string>, duration: int, position: int, playing: bool)
    | SectionPush(section: Section, entries: seq<Payload>)
    | BranchPush(kind: Kind, id: string, entries: seq<Payload>)
    | AbortedSectionPush(section: Section, prefix: seq<Payload>)
    | AbortedBranchPush(kind: Kind)
    | CastFailure
    | UnknownMethod

  /** `result.success(null)`, `result.notImplemented()`, or the error reply to a thrown exception. */
  datatype Reply = Success | NotImplemented | Failure

  function SectionMethod(s: Section): string
  {
    match s
    case Recent => "updateRecentSongs"
    case Albums => "updateAlbums"
    case Artists => "updateArtists"
    case Playlists => "updatePlaylists"
  }

  function SectionListKey(s: Section): string
  {
    match s
    case Recent => "songs"
    case Albums => "albums"
    case Artists => "artists"
    case Playlists => "playlists"
  }

  function BranchMethod(k: Kind): string
  {
    match k
    case Album => "updateAlbumSongs"
    case Artist => "updateArtistAlbums"
    case Playlist => "updatePlaylistSongs"
  }

  function BranchListKey(k: Kind): string
  {
    match k
    case Album => "songs"
    case Artist => "albums"
    case Playlist => "songs"
  }

  /** The method names `onMethodCall` handles. */
  const KnownMethods: set<string> := {
    "startService", "stopService", "updatePlaybackState",
    "updateRecentSongs", "updateAlbums", "updateArtists", "updatePlaylists",
    "updateAlbumSongs", "updateArtistAlbums", "updatePlaylistSongs"
  }

  /** A nullable argument kept nullable. */
  function Nullable(a: Arg<string>): Option<string>
  {
    match a
    case Given(v) => Some(v)
    case _ => None
  }

  /** An argument that a `call.argument<String>` cast accepts. */
  predicate StringTyped(v: Value)
  {
    v.Null? || v.Str?
  }

  /** An argument that a `call.argument<Number>` cast accepts. */
  predicate NumberTyped(v: Value)
  {
    v.Null? || v.Int? || v.Real?
  }

  /** The number a present `Number` argument stands for after `toLong()`. */
  function LongOf(v: Value): int
    requires v.Int? || v.Real?
  {
    if v.Int? then v.i else Truncate(v.r)
  }

  /** Each of the eight `updatePlaybackState` arguments is absent or of the
      type its cast expects. */
  predicate PlaybackTyped(args: Payload)
  {
    && StringTyped(Get(args, "songId")) && StringTyped(Get(args, "title")) && StringTyped(Get(args, "artist"))
    && StringTyped(Get(args, "album")) && StringTyped(Get(args, "artworkUrl"))
    && NumberTyped(Get(args, "duration")) && NumberTyped(Get(args, "position"))
    && (Get(args, "playing").Null? || Get(args, "playing").Bool?)
  }

  function DecodePlayback(args: Payload): (c: Call)
    ensures c.PlaybackState? || c.CastFailure?
    ensures c.CastFailure? <==> !PlaybackTyped(args)
  {
    var songId := StringArg(args, "songId");
    var title := StringArg(args, "title");
    var artist := StringArg(args, "artist");
    var album := StringArg(args, "album");
    var artworkUrl := StringArg(args, "artworkUrl");
    var duration := NumberArg(args, "duration");
    var position := NumberArg(args, "position");
    var playing := BoolArg(args, "playing");
    if songId.Mistyped? || title.Mistyped? || artist.Mistyped? || album.Mistyped? || artworkUrl.Mistyped?
       || duration.Mistyped? || position.Mistyped? || playing.Mistyped?
    then CastFailure
    else PlaybackState(Nullable(songId), title.Or(""), artist.Or(""), album.Or(""), Nullable(artworkUrl),
                       duration.Or(0), position.Or(0), playing.Or(false))
  }

  function DecodeSection(s: Section, args: Payload): (c: Call)
    ensures c.SectionPush? || c.AbortedSectionPush? || c.CastFailure?
    ensures !c.CastFailure? ==> c.section == s
    ensures c.AbortedSectionPush? ==>
      Get(args, SectionListKey(s)).Items? && |c.prefix| < |Get(args, SectionListKey(s)).elems|
    ensures c.SectionPush? && Get(args, SectionListKey(s)).Items? ==> |c.entries| == |Get(args, SectionListKey(s)).elems|
  {
    var list := Get(args, SectionListKey(s));
    var entries := ListArg(args, SectionListKey(s));
    if !entries.Mistyped? then SectionPush(s, entries.Or([]))
    else if list.Items? then AbortedSectionPush(s, MapPrefix(list.elems))
    else CastFailure
  }

  function DecodeBranch(k: Kind, args: Payload): (c: Call)
    ensures c.BranchPush? || c.AbortedBranchPush? || c.CastFailure?
    ensures !c.CastFailure? ==> c.kind == k
    ensures c.BranchPush? && Get(args, BranchListKey(k)).Items? ==> |c.entries| == |Get(args, BranchListKey(k)).elems|
    ensures c.AbortedBranchPush? ==>
      Get(args, BranchListKey(k)).Items? && !AllDicts(Get(args, BranchListKey(k)).elems)
  {
    var id := StringArg(args, IdKey(k));
    var entries := ListArg(args, BranchListKey(k));
    if id.Mistyped? then CastFailure
    else if !entries.Mistyped? then BranchPush(k, id.Or(""), entries.Or([]))
    else if Get(args, BranchListKey(k)).Items? then AbortedBranchPush(k)
    else CastFailure
  }

  /** The `when (call.method)` of `onMethodCall`. */
  function Decode(name: string, args: Payload): (c: Call)
    ensures c.UnknownMethod? <==> name !in KnownMethods
    ensures c.SectionPush? ==> name == SectionMethod(c.section)
    ensures c.BranchPush? ==> name == BranchMethod(c.kind)
  {
    if name == "startService" then StartService
    else if name == "stopService" then StopService
    else if name == "updatePlaybackState" then DecodePlayback(args)
    else if name == "updateRecentSongs" then DecodeSection(Recent, args)
    else if name == "updateAlbums" then DecodeSection(Albums, args)
    else if name == "updateArtists" then DecodeSection(Artists, args)
    else if name == "updatePlaylists" then DecodeSection(Playlists, args)
    else if name == "updateAlbumSongs" then DecodeBranch(Album, args)
    else if name == "updateArtistAlbums" then DecodeBranch(Artist, args)
    else if name == "updatePlaylistSongs" then DecodeBranch(Playlist, args)
    else UnknownMethod
  }

  /** The reply, given whether a service instance is running: an aborted push
      throws only inside the service, so with none running it succeeds. */
  function ReplyTo(c: Call, running: bool): (r: Reply)
    ensures r == NotImplemented <==> c.UnknownMethod?
    ensures r == Failure <==> c.CastFailure? || (running && (c.AbortedSectionPush? || c.AbortedBranchPush?))
  {
    match c
    case UnknownMethod => NotImplemented
    case CastFailure => Failure
    case AbortedSectionPush(_, _) => if running then Failure else Success
    case AbortedBranchPush(_) => if running then Failure else Success
    case _ => Success
  }

  /** The entries a list argument carries are exactly its map elements, in order. */
  predicate CarriesEntries(v: Value, entries: seq<Payload>)
  {
    v.Items? && |v.elems| == |entries| && forall i :: 0 <= i < |entries| ==> v.elems[i] == Dict(entries[i])
  }

  /** A branch push reads the id and the list of its kind: a missing id becomes
      "", a missing list the empty list; present values are taken as they are;
      a value of the wrong type makes the call fail. */
  lemma BranchArguments(k: Kind, args: Payload)
    ensures Decode(BranchMethod(k), args).BranchPush? <==>
      (Get(args, IdKey(k)).Null? || Get(args, IdKey(k)).Str?) &&
      (Get(args, BranchListKey(k)).Null? || (Get(args, BranchListKey(k)).Items? && AllDicts(Get(args, BranchListKey(k)).elems)))
    ensures Decode(BranchMethod(k), args).AbortedBranchPush? <==>
      (Get(args, IdKey(k)).Null? || Get(args, IdKey(k)).Str?) &&
      Get(args, BranchListKey(k)).Items? && !AllDicts(Get(args, BranchListKey(k)).elems)
    ensures Decode(BranchMethod(k), args).CastFailure? <==>
      (!Get(args, IdKey(k)).Null? && !Get(args, IdKey(k)).Str?) ||
      (!Get(args, BranchListKey(k)).Null? && !Get(args, BranchListKey(k)).Items?)
    ensures var c := Decode(BranchMethod(k), args);
      c.BranchPush? ==>
        && c.kind == k
        && (Get(args, IdKey(k)).Null? ==> c.id == "")
        && (Get(args, IdKey(k)).Str? ==> c.id == Get(args, IdKey(k)).s)
        && (Get(args, BranchListKey(k)).Null? ==> c.entries == [])
        && (Get(args, BranchListKey(k)).Items? ==> CarriesEntries(Get(args, BranchListKey(k)), c.entries))
  {
    assert BranchMethod(k) in KnownMethods;
  }

  /** A top-level push reads its section's list, defaulting a missing one to
      the empty list; a list with an element that is not a map is forwarded up
      to that element; any other value fails the cast. */
  lemma SectionArguments(s: Section, args: Payload)
    ensures Decode(SectionMethod(s), args).SectionPush? <==>
      Get(args, SectionListKey(s)).Null? || (Get(args, SectionListKey(s)).Items? && AllDicts(Get(args, SectionListKey(s)).elems))
    ensures Decode(SectionMethod(s), args).AbortedSectionPush? <==>
      Get(args, SectionListKey(s)).Items? && !AllDicts(Get(args, SectionListKey(s)).elems)
    ensures Decode(SectionMethod(s), args).CastFailure? <==>
      !Get(args, SectionListKey(s)).Null? && !Get(args, SectionListKey(s)).Items?
    ensures var c := Decode(SectionMethod(s), args);
      c.AbortedSectionPush? ==> c.section == s && c.prefix == MapPrefix(Get(args, SectionListKey(s)).elems)
    ensures var c := Decode(SectionMethod(s), args);
      c.SectionPush? ==>
        && c.section == s
        && (Get(args, SectionListKey(s)).Null? ==> c.entries == [])
        && (Get(args, SectionListKey(s)).Items? ==> CarriesEntries(Get(args, SectionListKey(s)), c.entries))
  {
    assert SectionMethod(s) in KnownMethods;
  }

  /** `updatePlaybackState` defaults title, artist and album to "", duration
      and position to 0 and playing to false, keeps the two nullable strings
      nullable, takes present strings and booleans as they are and present
      numbers through `toLong()`. */
  lemma PlaybackArguments(args: Payload)
    ensures var c := Decode("updatePlaybackState", args);
      c.PlaybackState? ==>
        && (Get(args, "title").Null? ==> c.title == "")
        && (Get(args, "title").Str? ==> c.title == Get(args, "title").s)
        && (Get(args, "artist").Null? ==> c.artist == "")
        && (Get(args, "artist").Str? ==> c.artist == Get(args, "artist").s)
        && (Get(args, "album").Null? ==> c.album == "")
        && (Get(args, "album").Str? ==> c.album == Get(args, "album").s)
        && (Get(args, "songId").Null? ==> c.songId == None)
        && (Get(args, "songId").Str? ==> c.songId == Some(Get(args, "songId").s))
        && (Get(args, "artworkUrl").Null? ==> c.artworkUrl == None)
        && (Get(args, "artworkUrl").Str? ==> c.artworkUrl == Some(Get(args, "artworkUrl").s))
    ensures var c := Decode("updatePlaybackState", args);
      c.PlaybackState? ==>
        && (Get(args, "duration").Null? ==> c.duration == 0)
        && (!Get(args, "duration").Null? ==> c.duration == LongOf(Get(args, "duration")))
        && (Get(args, "position").Null? ==> c.position == 0)
        && (!Get(args, "position").Null? ==> c.position == LongOf(Get(args, "position")))
        && (Get(args, "playing").Null? ==> !c.playing)
        && (Get(args, "playing").Bool? ==> c.playing == Get(args, "playing").b)
    ensures args == map[] ==> Decode("updatePlaybackState", args) == PlaybackState(None, "", "", "", None, 0, 0, false)
  {
  }

  /** `updatePlaybackState` casts exactly when each of its eight arguments is
      absent or of its type; otherwise the call fails. */
  lemma PlaybackCasts(args: Payload)
    ensures Decode("updatePlaybackState", args).PlaybackState? || Decode("updatePlaybackState", args).CastFailure?
    ensures Decode("updatePlaybackState", args).CastFailure? <==> !PlaybackTyped(args)
  {
  }

  /** What a decoded call does to the bridge state. */
  function Dispatch(b: MusicService.Bridge, c: Call): (d: MusicService.Bridge)
    ensures !(c.SectionPush? || c.BranchPush? || c.AbortedSectionPush?) ==> d == b
    ensures d.next == b.next && d.owner == b.owner && d.now == b.now && d.timers == b.timers
    ensures !c.SectionPush? ==> d.notified == b.notified
  {
    match c
    case SectionPush(s, entries) => MusicService.Refill(b, s, entries)
    case BranchPush(k, id, entries) => MusicService.Push(b, k, id, entries)
    case AbortedSectionPush(s, prefix) => MusicService.PartialRefill(b, s, prefix)
    case _ => b
  }

  /** No method call breaks the bridge's invariant, and none revives a result
      that was dropped. */
  lemma DispatchKeeps(b: MusicService.Bridge, c: Call)
    requires MusicService.Consistent(b)
    ensures MusicService.Consistent(Dispatch(b, c))
    ensures forall r :: MusicService.Dropped(b, r) ==> MusicService.Dropped(Dispatch(b, c), r)
    ensures MusicService.Armed(b) ==> MusicService.Armed(Dispatch(b, c))
  {
    match c
    case SectionPush(s, entries) =>
      MusicService.RefillKeeps(b, s, entries);
      if MusicService.Armed(b) { MusicService.RefillArmed(b, s, entries); }
    case BranchPush(k, id, entries) =>
      MusicService.PushKeeps(b, k, id, entries);
      if MusicService.Armed(b) { MusicService.PushArmed(b, k, id, entries); }
    case AbortedSectionPush(s, prefix) =>
      MusicService.PartialRefillKeeps(b, s, prefix);
      if MusicService.Armed(b) { MusicService.PartialRefillArmed(b, s, prefix); }
    case _ =>
  }

  /** `onMethodCall(call, result)` with `MusicService.getInstance()` given as
      `service`. A push or a playback update reaches the service only when an
      instance exists; an unknown name or a failed cast changes nothing; an
      aborted push fails inside the service, so with none running the call
      succeeds. */
  method OnMethodCall(name: string, args: Payload, service: MusicService.MusicService?) returns (reply: Reply)
    requires service != null ==> service.Valid()
    modifies service
    ensures reply == ReplyTo(Decode(name, args), service != null)
    ensures service != null ==> service.Valid()
    ensures service != null ==> service.Model() == Dispatch(old(service.Model()), Decode(name, args))
    ensures service != null && Decode(name, args).PlaybackState? ==>
      var c := Decode(name, args);
      service.Playback() == (c.songId, c.title, c.artist, c.album, c.artworkUrl, c.duration, c.position, c.playing)
    ensures service != null && !Decode(name, args).PlaybackState? ==> service.Playback() == old(service.Playback())
    ensures service != null && (Decode(name, args).UnknownMethod? || Decode(name, args).CastFailure? || Decode(name, args).AbortedBranchPush?) ==>
      unchanged(service)
  {
    var c := Decode(name, args);
    reply := ReplyTo(c, service != null);
    if service != null {
      Perform(c, service);
    }
  }

  /** Forwards a decoded call to the running service. */
  method Perform(c: Call, service: MusicService.MusicService)
    requires service.Valid()
    modifies service
    ensures service.Valid()
    ensures service.Model() == Dispatch(old(service.Model()), c)
    ensures c.PlaybackState? ==>
      service.Playback() == (c.songId, c.title, c.artist, c.album, c.artworkUrl, c.duration, c.position, c.playing)
    ensures !c.PlaybackState? ==> service.Playback() == old(service.Playback())
    ensures c.UnknownMethod? || c.CastFailure? || c.AbortedBranchPush? ==> unchanged(service)
  {
    match c {
      case SectionPush(s, entries) =>
        service.UpdateSection(s, entries);
      case BranchPush(k, id, entries) =>
        service.UpdateBranch(k, id, entries);
      case AbortedSectionPush(s, prefix) =>
        service.AbortSection(s, prefix);
      case PlaybackState(songId, title, artist, album, artworkUrl, duration, position, playing) =>
        service.UpdatePlaybackState(songId, title, artist, album, artworkUrl, duration, position, playing);
      case _ =>
    }
  }
}
