/**
 * The browse catalog that the media service shows to an Android Auto or
 * media-browser client: its media items, the four fixed sections under the
 * root, the routing of a parent id to what is listed under it, and the
 * mapping of pushed payload maps to items.
 */
module Catalog {
  import opened Channel

  /** The two kinds of node `MediaBrowserCompat.MediaItem` distinguishes. */
  datatype Flag = Browsable | Playable

  /** A media item with the description fields the service sets. `iconUri` holds
      the artwork URL the icon URI is parsed from. */
  datatype MediaItem = MediaItem(
    mediaId: string,
    title: string,
    subtitle: string,
    description: Option<string>,
    iconUri: Option<string>,
    flag: Flag)

  /** The three kinds of branch that are fetched lazily from the app. */
  datatype Kind = Album | Artist | Playlist

  /** The four top-level sections the app pushes proactively. */
  datatype Section = Recent | Albums | Artists | Playlists

  const RootId := "ROOT"

  function SectionId(s: Section): string
  {
    match s
    case Recent => "RECENT"
    case Albums => "ALBUMS"
    case Artists => "ARTISTS"
    case Playlists => "PLAYLISTS"
  }

  /** The parent-id prefix that names a branch of a kind. */
  function Prefix(k: Kind): string
  {
    match k
    case Album => "album_"
    case Artist => "artist_"
    case Playlist => "playlist_"
  }

  /** The command the service sends to the app when a branch of a kind is not cached. */
  function CommandName(k: Kind): string
  {
    match k
    case Album => "getAlbumSongs"
    case Artist => "getArtistAlbums"
    case Playlist => "getPlaylistSongs"
  }

  /** The argument key that carries the branch id in that command. */
  function IdKey(k: Kind): string
  {
    match k
    case Album => "albumId"
    case Artist => "artistId"
    case Playlist => "playlistId"
  }

  // ---------------------------------------------------------------------------
  // Item builders

  /** The icon is set only for a present, non-empty artwork URL. */
  function Icon(artworkUrl: Option<string>): Option<string>
  {
    if artworkUrl.Some? && artworkUrl.value != "" then artworkUrl else None
  }

  /** A folder: browsable, with no description and no icon. */
  function BrowsableItem(mediaId: string, title: string, subtitle: string): (it: MediaItem)
    ensures it.flag == Browsable && it.mediaId == mediaId
    ensures it.title == title && it.subtitle == subtitle
    ensures it.description.None? && it.iconUri.None?
  {
    MediaItem(mediaId, title, subtitle, None, None, Browsable)
  }

  /** A folder with artwork: the icon is the URL exactly when one is given
      and is not empty. */
  function BrowsableItemWithArt(mediaId: string, title: string, subtitle: string, artworkUrl: Option<string>): (it: MediaItem)
    ensures it.flag == Browsable && it.mediaId == mediaId
    ensures it.title == title && it.subtitle == subtitle && it.description.None?
    ensures it.iconUri.Some? <==> artworkUrl.Some? && artworkUrl.value != ""
    ensures it.iconUri.Some? ==> it.iconUri == artworkUrl
  {
    MediaItem(mediaId, title, subtitle, None, Icon(artworkUrl), Browsable)
  }

  /** A song: playable, the artist as subtitle and the album as description;
      the icon as for a folder with artwork. */
  function PlayableItem(mediaId: string, title: string, artist: string, album: string, artworkUrl: Option<string>): (it: MediaItem)
    ensures it.flag == Playable && it.mediaId == mediaId
    ensures it.title == title && it.subtitle == artist && it.description == Some(album)
    ensures it.iconUri.Some? <==> artworkUrl.Some? && artworkUrl.value != ""
    ensures it.iconUri.Some? ==> it.iconUri == artworkUrl
  {
    MediaItem(mediaId, title, artist, Some(album), Icon(artworkUrl), Playable)
  }

  /** The fixed children of the root, in their fixed order. */
  function RootItems(): (r: seq<MediaItem>)
    ensures |r| == 4
    ensures forall i :: 0 <= i < 4 ==> r[i].flag == Browsable && r[i].mediaId == SectionId(SectionAt(i))
    ensures forall i :: 0 <= i < 4 ==> r[i].iconUri.None? && r[i].description.None?
  {
    [ BrowsableItem(SectionId(Recent), "Recent", "Recently played songs"),
      BrowsableItem(SectionId(Albums), "Albums", "Browse by album"),
      BrowsableItem(SectionId(Artists), "Artists", "Browse by artist"),
      BrowsableItem(SectionId(Playlists), "Playlists", "Your playlists") ]
  }

  /** The section shown at a position under the root. */
  function SectionAt(i: nat): Section
    requires i < 4
  {
    [Recent, Albums, Artists, Playlists][i]
  }

  // ---------------------------------------------------------------------------
  // Payload mapping

  /** `m[key] ?: 0`: a missing or null count reads as zero. */
  function CountOrZero(m: Payload, key: string): Value
  {
    if Get(m, key).Null? then Int(0) else Get(m, key)
  }

  /** A song map as a playable item: the id, title and artist strings (or "")
      as media id, title and subtitle, the album as description, and the
      artwork URL as icon when it is a non-empty string. */
  function SongItem(song: Payload): (it: MediaItem)
    ensures it.flag == Playable && it.description == Some(StringOr(song, "album", ""))
    ensures it.mediaId == StringOr(song, "id", "") && it.title == StringOr(song, "title", "")
    ensures it.subtitle == StringOr(song, "artist", "")
    ensures it.iconUri.Some? ==> it.iconUri == StringOpt(song, "artworkUrl") && it.iconUri.value != ""
  {
    PlayableItem(StringOr(song, "id", ""), StringOr(song, "title", ""), StringOr(song, "artist", ""),
                 StringOr(song, "album", ""), StringOpt(song, "artworkUrl"))
  }

  /** An album map as a browsable node that routes to that album's songs. */
  function AlbumItem(album: Payload): (it: MediaItem)
    ensures it.flag == Browsable && it.description.None?
    ensures it.mediaId == Prefix(Album) + Render(Get(album, "id"))
    ensures it.title == StringOr(album, "name", "") && it.subtitle == StringOr(album, "artist", "")
    ensures it.iconUri.Some? ==> it.iconUri == StringOpt(album, "artworkUrl") && it.iconUri.value != ""
  {
    BrowsableItemWithArt(Prefix(Album) + Render(Get(album, "id")), StringOr(album, "name", ""),
                         StringOr(album, "artist", ""), StringOpt(album, "artworkUrl"))
  }

  /** An artist map as a browsable node that routes to that artist's albums. */
  function ArtistItem(artist: Payload): (it: MediaItem)
    ensures it.flag == Browsable && it.description.None? && it.iconUri.None?
    ensures it.mediaId == Prefix(Artist) + Render(Get(artist, "id"))
    ensures it.title == StringOr(artist, "name", "")
    ensures it.subtitle == Render(CountOrZero(artist, "albumCount")) + " albums"
  {
    BrowsableItem(Prefix(Artist) + Render(Get(artist, "id")), StringOr(artist, "name", ""),
                  Render(CountOrZero(artist, "albumCount")) + " albums")
  }

  /** A playlist map as a browsable node that routes to that playlist's songs. */
  function PlaylistItem(playlist: Payload): (it: MediaItem)
    ensures it.flag == Browsable && it.description.None?
    ensures it.mediaId == Prefix(Playlist) + Render(Get(playlist, "id"))
    ensures it.title == StringOr(playlist, "name", "")
    ensures it.subtitle == Render(CountOrZero(playlist, "songCount")) + " songs"
    ensures it.iconUri.Some? ==> it.iconUri == StringOpt(playlist, "artworkUrl") && it.iconUri.value != ""
  {
    BrowsableItemWithArt(Prefix(Playlist) + Render(Get(playlist, "id")), StringOr(playlist, "name", ""),
                         Render(CountOrZero(playlist, "songCount")) + " songs", StringOpt(playlist, "artworkUrl"))
  }

  /** How a pushed child of a branch becomes an item: album and playlist
      children are songs, artist children are albums. */
  function BranchItem(k: Kind, m: Payload): MediaItem
  {
    match k
    case Album => SongItem(m)
    case Artist => AlbumItem(m)
    case Playlist => SongItem(m)
  }

  /** How a pushed entry of a top-level section becomes an item. */
  function SectionItem(s: Section, m: Payload): MediaItem
  {
    match s
    case Recent => SongItem(m)
    case Albums => AlbumItem(m)
    case Artists => ArtistItem(m)
    case Playlists => PlaylistItem(m)
  }

  /** `payload.map { BranchItem(k, it) }` */
  function BranchItems(k: Kind, payload: seq<Payload>): (r: seq<MediaItem>)
    ensures |r| == |payload|
    ensures forall i :: 0 <= i < |payload| ==> r[i] == BranchItem(k, payload[i])
  {
    seq(|payload|, i requires 0 <= i < |payload| => BranchItem(k, payload[i]))
  }

  /** The section list built from a payload, entry by entry. */
  function SectionItems(s: Section, payload: seq<Payload>): seq<MediaItem>
  {
    if payload == [] then [] else SectionItems(s, payload[..|payload| - 1]) + [SectionItem(s, payload[|payload| - 1])]
  }

  /** Appending one entry to the payload appends its item to the section list. */
  lemma SectionItemsSnoc(s: Section, payload: seq<Payload>, m: Payload)
    ensures SectionItems(s, payload + [m]) == SectionItems(s, payload) + [SectionItem(s, m)]
  {
    assert (payload + [m])[..|payload|] == payload;
  }

  lemma {:induction false} SectionItemsAt(s: Section, payload: seq<Payload>, i: nat)
    requires i < |payload|
    ensures |SectionItems(s, payload)| == |payload|
    ensures SectionItems(s, payload)[i] == SectionItem(s, payload[i])
  {
    if i < |payload| - 1 {
      SectionItemsAt(s, payload[..|payload| - 1], i);
    } else if |payload| > 1 {
      SectionItemsAt(s, payload[..|payload| - 1], 0);
    }
  }

  /** A section list has one item per payload entry, each built from the entry
      at the same position. */
  lemma SectionItemsPreserveOrder(s: Section, payload: seq<Payload>)
    ensures |SectionItems(s, payload)| == |payload|
    ensures forall i :: 0 <= i < |payload| ==> SectionItems(s, payload)[i] == SectionItem(s, payload[i])
  {
    if payload == [] {
    } else {
      SectionItemsAt(s, payload, 0);
      forall i | 0 <= i < |payload|
        ensures SectionItems(s, payload)[i] == SectionItem(s, payload[i])
      {
        SectionItemsAt(s, payload, i);
      }
    }
  }

  /** The artwork icon is set exactly for a non-empty artwork URL. */
  lemma IconOnlyForNonEmptyUrl(m: Payload)
    ensures SongItem(m).iconUri.Some? <==> (Get(m, "artworkUrl").Str? && Get(m, "artworkUrl").s != "")
    ensures SongItem(m).iconUri.Some? ==> SongItem(m).iconUri.value == Get(m, "artworkUrl").s
  {
  }

  /** A song payload whose fields are missing or are not strings maps to an item
      with empty text fields and no icon: mapping never fails. */
  lemma SongDefaults(song: Payload)
    requires forall key :: key in {"id", "title", "artist", "album", "artworkUrl"} ==> !Get(song, key).Str?
    ensures SongItem(song) == MediaItem("", "", "", Some(""), None, Playable)
  {
    assert !Get(song, "id").Str? && !Get(song, "title").Str? && !Get(song, "artist").Str?;
    assert !Get(song, "album").Str? && !Get(song, "artworkUrl").Str?;
  }

  /** A song payload with string fields maps to an item carrying them verbatim:
      the id as media id, the artist as subtitle and the album as description. */
  lemma SongFieldsKept(id: string, title: string, artist: string, album: string, extra: Payload)
    ensures SongItem(extra + map["id" := Str(id), "title" := Str(title), "artist" := Str(artist), "album" := Str(album)])
            == MediaItem(id, title, artist, Some(album), Icon(StringOpt(extra, "artworkUrl")), Playable)
  {
    var m := extra + map["id" := Str(id), "title" := Str(title), "artist" := Str(artist), "album" := Str(album)];
    assert Get(m, "artworkUrl") == Get(extra, "artworkUrl");
  }

  /** Count subtitles: a missing or null count shows as 0, a number as its
      decimal text. */
  lemma CountSubtitles(m: Payload)
    ensures !Get(m, "albumCount").Null? || ArtistItem(m).subtitle == "0 albums"
    ensures !Get(m, "songCount").Null? || PlaylistItem(m).subtitle == "0 songs"
    ensures forall n :: Get(m, "albumCount") == Int(n) ==> ArtistItem(m).subtitle == Decimal(n) + " albums"
    ensures forall n :: Get(m, "songCount") == Int(n) ==> PlaylistItem(m).subtitle == Decimal(n) + " songs"
  {
    assert Decimal(0) == "0";
  }

  // ---------------------------------------------------------------------------
  // Routing of parent ids

  datatype Route = RootNode | SectionNode(section: Section) | BranchNode(kind: Kind, id: string) | Unknown

  predicate StartsWith(s: string, prefix: string)
  {
    |prefix| <= |s| && s[..|prefix|] == prefix
  }

  /** `removePrefix`, applied only where the prefix is present. */
  function DropPrefix(s: string, prefix: string): string
    requires StartsWith(s, prefix)
  {
    s[|prefix|..]
  }

  predicate IsFixedId(p: string)
  {
    p == RootId || p == SectionId(Recent) || p == SectionId(Albums) || p == SectionId(Artists) || p == SectionId(Playlists)
  }

  /** The `when (parentId)` of `onLoadChildren`: the exact ids first, then the
      three prefixes in order album, artist, playlist, then nothing. */
  function RouteOf(parentId: string): (r: Route)
    ensures r == RootNode <==> parentId == RootId
    ensures r.SectionNode? ==> parentId == SectionId(r.section)
    ensures r.SectionNode? || r == RootNode <==> IsFixedId(parentId)
    ensures r.BranchNode? ==> StartsWith(parentId, Prefix(r.kind)) && r.id == parentId[|Prefix(r.kind)|..]
    ensures r == Unknown <==>
      !IsFixedId(parentId) && !StartsWith(parentId, Prefix(Album)) && !StartsWith(parentId, Prefix(Artist)) &&
      !StartsWith(parentId, Prefix(Playlist))
  {
    if parentId == RootId then RootNode
    else if parentId == SectionId(Recent) then SectionNode(Recent)
    else if parentId == SectionId(Albums) then SectionNode(Albums)
    else if parentId == SectionId(Artists) then SectionNode(Artists)
    else if parentId == SectionId(Playlists) then SectionNode(Playlists)
    else if StartsWith(parentId, Prefix(Album)) then BranchNode(Album, DropPrefix(parentId, Prefix(Album)))
    else if StartsWith(parentId, Prefix(Artist)) then BranchNode(Artist, DropPrefix(parentId, Prefix(Artist)))
    else if StartsWith(parentId, Prefix(Playlist)) then BranchNode(Playlist, DropPrefix(parentId, Prefix(Playlist)))
    else Unknown
  }

  /** Every section id routes to its section, and the root to the root. */
  lemma FixedIdsRoute(s: Section)
    ensures RouteOf(SectionId(s)) == SectionNode(s)
    ensures RouteOf(RootId) == RootNode
  {
  }

  /** The node id of any branch routes back to exactly that branch: the id after
      the one prefix is kept verbatim, even when it itself starts with a prefix. */
  lemma BranchIdRoundTrip(k: Kind, id: string)
    ensures RouteOf(Prefix(k) + id) == BranchNode(k, id)
  {
    var p := Prefix(k) + id;
    assert p[..|Prefix(k)|] == Prefix(k);
    assert p[|Prefix(k)|..] == id;
    match k {
      case Album =>
        assert p[0] == 'a';
      case Artist =>
        assert p[0] == 'a' && p[1] == 'r';
      case Playlist =>
        assert p[0] == 'p';
    }
  }

  /** A parent id routes to a branch only when it is that branch's prefix followed
      by the branch id, and no earlier test in the order matched. */
  lemma BranchRouteOnlyFromPrefix(p: string, k: Kind, id: string)
    requires RouteOf(p) == BranchNode(k, id)
    ensures p == Prefix(k) + id && !IsFixedId(p)
    ensures k != Album ==> !StartsWith(p, Prefix(Album))
    ensures k == Playlist ==> !StartsWith(p, Prefix(Artist))
  {
    assert p == p[..|Prefix(k)|] + p[|Prefix(k)|..];
  }

  /** Anything that is not a fixed id and carries none of the three prefixes
      lists nothing. */
  lemma UnknownRoute(p: string)
    ensures RouteOf(p) == Unknown <==>
      !IsFixedId(p) && !StartsWith(p, Prefix(Album)) && !StartsWith(p, Prefix(Artist)) && !StartsWith(p, Prefix(Playlist))
  {
  }

  /** The children the service lists always route back: each root child to its
      section, and each pushed album, artist or playlist node to the branch of
      the pushed id. */
  lemma ChildIdsRouteBack(m: Payload)
    ensures forall i :: 0 <= i < 4 ==> RouteOf(RootItems()[i].mediaId) == SectionNode(SectionAt(i))
    ensures RouteOf(AlbumItem(m).mediaId) == BranchNode(Album, Render(Get(m, "id")))
    ensures RouteOf(ArtistItem(m).mediaId) == BranchNode(Artist, Render(Get(m, "id")))
    ensures RouteOf(PlaylistItem(m).mediaId) == BranchNode(Playlist, Render(Get(m, "id")))
  {
    BranchIdRoundTrip(Album, Render(Get(m, "id")));
    BranchIdRoundTrip(Artist, Render(Get(m, "id")));
    BranchIdRoundTrip(Playlist, Render(Get(m, "id")));
  }
}
