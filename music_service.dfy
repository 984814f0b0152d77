/**
 * The media-browser service's lazy catalog bridge. A browse client pulls the
 * children of a node with `onLoadChildren`; the app can only push lists. The
 * bridge keeps, per branch kind, a cache of pushed lists and a table of
 * results waiting for a push. On a miss it records the result as pending,
 * sends a fetch command to the app and launches a 10-second timer that
 * resolves whatever is pending for that id with an empty list. A push
 * replaces the cache entry and resolves the pending result. Everything runs
 * on the main dispatcher, so the model is sequential: each event is one
 * transition of a `Bridge` value, and the `MusicService` class, whose fields
 * the events update, is proved to follow those transitions.
 */
module MusicService {
  import opened Channel
  import opened Catalog
  import AutoPlugin

  /** The identity of one `Result` handed to `onLoadChildren`. */
  type ResultId = nat

  /** One `result.sendResult(items)`. */
  datatype Delivery = Delivery(result: ResultId, items: seq<MediaItem>)

  /** A coroutine launched by a miss: once its deadline has passed it resolves
      whatever is pending for its id. It is never cancelled. */
  datatype Timer = Timer(kind: Kind, id: string, deadline: int)

  /** `delay(10000)` */
  const LoadTimeoutMs: nat := 10000

  /** One value per branch kind: the three caches, or the three pending tables. */
  datatype PerKind<V> = PerKind(album: V, artist: V, playlist: V)
  {
    function Of(k: Kind): V
    {
      match k
      case Album => album
      case Artist => artist
      case Playlist => playlist
    }

    function With(k: Kind, v: V): (t: PerKind<V>)
      ensures t.Of(k) == v
      ensures forall k' :: k' != k ==> t.Of(k') == Of(k')
    {
      match k
      case Album => this.(album := v)
      case Artist => this.(artist := v)
      case Playlist => this.(playlist := v)
    }
  }

  /** One list per top-level section. */
  datatype PerSection<V> = PerSection(recent: V, albums: V, artists: V, playlists: V)
  {
    function Of(s: Section): V
    {
      match s
      case Recent => recent
      case Albums => albums
      case Artists => artists
      case Playlists => playlists
    }

    function With(s: Section, v: V): (t: PerSection<V>)
      ensures t.Of(s) == v
      ensures forall s' :: s' != s ==> t.Of(s') == Of(s')
    {
      match s
      case Recent => this.(recent := v)
      case Albums => this.(albums := v)
      case Artists => this.(artists := v)
      case Playlists => this.(playlists := v)
    }
  }

  type Tables = PerKind<map<string, ResultId>>

  /** The state of the bridge. `owner` records, for each result ever made
      pending, the kind and id it was made pending under; it is bookkeeping
      for the proofs, not state of the service. */
  datatype Bridge = Bridge(
    sections: PerSection<seq<MediaItem>>,
    caches: PerKind<map<string, seq<MediaItem>>>,
    pending: Tables,
    timers: multiset<Timer>,
    deliveries: seq<Delivery>,
    notified: seq<string>,
    next: ResultId,
    owner: map<ResultId, (Kind, string)>,
    now: int)

  /** The results that deliveries went to. */
  function Results(ds: seq<Delivery>): set<ResultId>
  {
    set i | 0 <= i < |ds| :: ds[i].result
  }

  lemma ResultsAppend(ds: seq<Delivery>, d: Delivery)
    ensures Results(ds + [d]) == Results(ds) + {d.result}
  {
    var e := ds + [d];
    forall r | r in Results(e) ensures r in Results(ds) + {d.result} {
      var i :| 0 <= i < |e| && e[i].result == r;
      if i < |ds| { assert ds[i] == e[i]; }
    }
    forall r | r in Results(ds) + {d.result} ensures r in Results(e) {
      if r in Results(ds) {
        var i :| 0 <= i < |ds| && ds[i].result == r;
        assert e[i] == ds[i];
      } else {
        assert e[|ds|] == d;
      }
    }
  }

  /** The result r is pending under some kind and id. */
  ghost predicate PendingIn(t: Tables, r: ResultId)
  {
    exists k, id :: id in t.Of(k) && t.Of(k)[id] == r
  }

  /** No result receives two deliveries. */
  ghost predicate DeliveredAtMostOnce(ds: seq<Delivery>)
  {
    forall i, j :: 0 <= i < j < |ds| ==> ds[i].result != ds[j].result
  }

  /** The bridge's invariant: every delivery went to a result already handed
      out, and no result got two; every pending result was handed out, is
      undelivered, and belongs to the one (kind, id) it is pending under, so
      that no result is pending twice. */
  ghost predicate Consistent(b: Bridge)
  {
    && (forall i :: 0 <= i < |b.deliveries| ==> b.deliveries[i].result < b.next)
    && DeliveredAtMostOnce(b.deliveries)
    && (forall k, id :: id in b.pending.Of(k) ==>
          && b.pending.Of(k)[id] < b.next
          && b.pending.Of(k)[id] !in Results(b.deliveries)
          && b.pending.Of(k)[id] in b.owner && b.owner[b.pending.Of(k)[id]] == (k, id))
  }

  /** A result handed out that is neither pending nor delivered: nothing in the
      bridge can answer it any more. */
  ghost predicate Dropped(b: Bridge, r: ResultId)
  {
    r < b.next && r !in Results(b.deliveries) && !PendingIn(b.pending, r)
  }

  lemma ResultsBelow(b: Bridge)
    requires Consistent(b)
    ensures forall r :: r in Results(b.deliveries) ==> r < b.next
  {
    forall r | r in Results(b.deliveries) ensures r < b.next {
      var i :| 0 <= i < |b.deliveries| && b.deliveries[i].result == r;
    }
  }

  // ---------------------------------------------------------------------------
  // Transitions

  /** What a load lists at once, or None when it is a cache miss: the root's
      four sections, a section's current list, a cached branch list (even an
      empty one), or nothing for an id no route matches. */
  function Listing(b: Bridge, route: Route): (r: Option<seq<MediaItem>>)
    ensures r.None? <==> route.BranchNode? && route.id !in b.caches.Of(route.kind)
    ensures route == RootNode ==> r == Some(RootItems())
    ensures route.SectionNode? ==> r == Some(b.sections.Of(route.section))
    ensures route.BranchNode? && r.Some? ==> r.value == b.caches.Of(route.kind)[route.id]
    ensures route == Unknown ==> r == Some([])
  {
    match route
    case RootNode => Some(RootItems())
    case SectionNode(s) => Some(b.sections.Of(s))
    case BranchNode(k, id) => if id in b.caches.Of(k) then Some(b.caches.Of(k)[id]) else None
    case Unknown => Some([])
  }

  /** A fresh result answered at once. */
  function Answer(b: Bridge, items: seq<MediaItem>): Bridge
  {
    b.(deliveries := b.deliveries + [Delivery(b.next, items)], next := b.next + 1)
  }

  /** `pendingX[id] = result` for a fresh result. */
  function Enlist(b: Bridge, k: Kind, id: string): Bridge
  {
    b.(pending := b.pending.With(k, b.pending.Of(k)[id := b.next]),
       owner := b.owner[b.next := (k, id)],
       next := b.next + 1)
  }

  /** A miss: the fresh result waits, and a timer is armed ten seconds ahead. */
  function Wait(b: Bridge, k: Kind, id: string): Bridge
  {
    Enlist(b, k, id).(timers := b.timers + multiset{Timer(k, id, b.now + LoadTimeoutMs)})
  }

  /** `getAlbumSongsDynamic`, `getArtistAlbumsDynamic`, `getPlaylistSongsDynamic`. */
  function Visit(b: Bridge, k: Kind, id: string): Bridge
  {
    if id in b.caches.Of(k) then Answer(b, b.caches.Of(k)[id]) else Wait(b, k, id)
  }

  /** `onLoadChildren(parentId, result)` for a fresh result. */
  function Load(b: Bridge, parentId: string): (c: Bridge)
    ensures c.sections == b.sections && c.caches == b.caches && c.notified == b.notified && c.now == b.now
    ensures c.next == b.next + 1
  {
    var route := RouteOf(parentId);
    if route.BranchNode? then Visit(b, route.kind, route.id) else Answer(b, Listing(b, route).value)
  }

  /** The arguments of the fetch command a miss sends. */
  function FetchArguments(k: Kind, id: string): Payload
  {
    map[IdKey(k) := Str(id)]
  }

  /** The command a load sends to the app, if any. */
  function Fetch(b: Bridge, parentId: string): (f: Option<(string, Payload)>)
    ensures f.Some? <==> Listing(b, RouteOf(parentId)).None?
  {
    var route := RouteOf(parentId);
    if route.BranchNode? && route.id !in b.caches.Of(route.kind)
    then Some((CommandName(route.kind), FetchArguments(route.kind, route.id)))
    else None
  }

  /** `pendingX.remove(id)?.sendResult(items)`. */
  function Resolve(b: Bridge, k: Kind, id: string, items: seq<MediaItem>): (c: Bridge)
    ensures id !in c.pending.Of(k)
    ensures id in b.pending.Of(k) ==> c.deliveries == b.deliveries + [Delivery(b.pending.Of(k)[id], items)]
    ensures id !in b.pending.Of(k) ==> c == b
    ensures c.sections == b.sections && c.caches == b.caches && c.timers == b.timers && c.next == b.next
  {
    if id in b.pending.Of(k) then
      b.(pending := b.pending.With(k, b.pending.Of(k) - {id}),
         deliveries := b.deliveries + [Delivery(b.pending.Of(k)[id], items)])
    else b
  }

  /** `updateAlbumSongs`, `updateArtistAlbums`, `updatePlaylistSongs`: the
      mapped list replaces the cache entry, then resolves the pending result. */
  function Push(b: Bridge, k: Kind, id: string, payload: seq<Payload>): (c: Bridge)
    ensures id in c.caches.Of(k) && c.caches.Of(k)[id] == BranchItems(k, payload)
    ensures id !in c.pending.Of(k)
    ensures c.sections == b.sections && c.timers == b.timers && c.next == b.next && c.notified == b.notified
  {
    var items := BranchItems(k, payload);
    Resolve(b.(caches := b.caches.With(k, b.caches.Of(k)[id := items])), k, id, items)
  }

  /** The continuation of a timer whose delay has passed. */
  function Fire(b: Bridge, t: Timer): (c: Bridge)
    requires t in b.timers && t.deadline <= b.now
    ensures c.timers == b.timers - multiset{t}
    ensures t.id !in c.pending.Of(t.kind)
    ensures c.caches == b.caches && c.sections == b.sections && c.next == b.next
  {
    Resolve(b.(timers := b.timers - multiset{t}), t.kind, t.id, [])
  }

  /** Time passes on the main dispatcher. */
  function Advance(b: Bridge, dt: nat): Bridge
  {
    b.(now := b.now + dt)
  }

  /** `updateRecentSongs`, `updateAlbums`, `updateArtists`, `updatePlaylists`. */
  function Refill(b: Bridge, s: Section, payload: seq<Payload>): (c: Bridge)
    ensures c.notified == b.notified + [SectionId(s)]
    ensures forall s' :: s' != s ==> c.sections.Of(s') == b.sections.Of(s')
    ensures c.caches == b.caches && c.pending == b.pending && c.deliveries == b.deliveries && c.timers == b.timers
  {
    b.(sections := b.sections.With(s, SectionItems(s, payload)), notified := b.notified + [SectionId(s)])
  }

  /** A top-level push whose loop throws after adding `prefix`: the section is
      cleared and holds the items added so far, and no notification is sent. */
  function PartialRefill(b: Bridge, s: Section, prefix: seq<Payload>): (c: Bridge)
    ensures c.notified == b.notified
    ensures forall s' :: s' != s ==> c.sections.Of(s') == b.sections.Of(s')
    ensures c.caches == b.caches && c.pending == b.pending && c.deliveries == b.deliveries && c.timers == b.timers
  {
    b.(sections := b.sections.With(s, SectionItems(s, prefix)))
  }

  // ---------------------------------------------------------------------------
  // What the transitions do

  /** The fixed routes answer at once: the root with its four sections, a
      section with its current list, an id no route matches with nothing. */
  lemma LoadFixedRoutes(b: Bridge, s: Section, p: string)
    ensures Load(b, RootId).deliveries == b.deliveries + [Delivery(b.next, RootItems())]
    ensures Load(b, SectionId(s)).deliveries == b.deliveries + [Delivery(b.next, b.sections.Of(s))]
    ensures RouteOf(p) == Unknown ==> Load(b, p).deliveries == b.deliveries + [Delivery(b.next, [])]
    ensures Load(b, RootId).pending == b.pending && Load(b, SectionId(s)).pending == b.pending
  {
    FixedIdsRoute(s);
  }

  /** A load that is not a miss answers its fresh result with the listing and
      leaves the pending tables, the timers and the caches alone. */
  lemma LoadHit(b: Bridge, parentId: string)
    requires Listing(b, RouteOf(parentId)).Some?
    ensures Load(b, parentId).deliveries == b.deliveries + [Delivery(b.next, Listing(b, RouteOf(parentId)).value)]
    ensures Load(b, parentId).pending == b.pending && Load(b, parentId).timers == b.timers
    ensures Fetch(b, parentId).None?
  {
  }

  /** A miss delivers nothing; the fresh result becomes the one pending for the
      id, replacing any earlier one; exactly one timer is armed for ten seconds
      from now; and the fetch command names the kind and carries the id. */
  lemma LoadMiss(b: Bridge, parentId: string)
    requires Listing(b, RouteOf(parentId)).None?
    ensures var k, id := RouteOf(parentId).kind, RouteOf(parentId).id;
      && Load(b, parentId).deliveries == b.deliveries
      && Load(b, parentId).pending == b.pending.With(k, b.pending.Of(k)[id := b.next])
      && Load(b, parentId).timers == b.timers + multiset{Timer(k, id, b.now + LoadTimeoutMs)}
      && Fetch(b, parentId) == Some((CommandName(k), map[IdKey(k) := Str(id)]))
  {
  }

  /** A push stores the mapped list under its id and answers the result pending
      for that id, if any, with the same list; every other id is untouched. */
  lemma PushAnswers(b: Bridge, k: Kind, id: string, payload: seq<Payload>)
    ensures var c := Push(b, k, id, payload);
      && c.caches.Of(k) == b.caches.Of(k)[id := BranchItems(k, payload)]
      && (forall k' :: k' != k ==> c.caches.Of(k') == b.caches.Of(k'))
      && c.pending.Of(k) == b.pending.Of(k) - {id}
      && (forall k' :: k' != k ==> c.pending.Of(k') == b.pending.Of(k'))
      && c.deliveries == b.deliveries +
           (if id in b.pending.Of(k) then [Delivery(b.pending.Of(k)[id], BranchItems(k, payload))] else [])
      && c.timers == b.timers && c.sections == b.sections && c.next == b.next
  {
  }

  /** A timer takes itself out and answers whatever is pending for its id at
      that moment with the empty list. */
  lemma FireAnswers(b: Bridge, t: Timer)
    requires t in b.timers && t.deadline <= b.now
    ensures var c := Fire(b, t);
      && c.timers == b.timers - multiset{t}
      && c.pending.Of(t.kind) == b.pending.Of(t.kind) - {t.id}
      && (forall k' :: k' != t.kind ==> c.pending.Of(k') == b.pending.Of(k'))
      && c.deliveries == b.deliveries +
           (if t.id in b.pending.Of(t.kind) then [Delivery(b.pending.Of(t.kind)[t.id], [])] else [])
      && c.caches == b.caches && c.next == b.next
  {
  }

  /** A top-level push replaces exactly its section, independently of what was
      there, and notifies that section's id alone. */
  lemma RefillReplaces(b: Bridge, s: Section, payload: seq<Payload>)
    ensures var c := Refill(b, s, payload);
      && |c.sections.Of(s)| == |payload|
      && (forall i :: 0 <= i < |payload| ==> c.sections.Of(s)[i] == SectionItem(s, payload[i]))
      && (forall s' :: s' != s ==> c.sections.Of(s') == b.sections.Of(s'))
      && c.notified == b.notified + [SectionId(s)]
      && c.caches == b.caches && c.pending == b.pending && c.deliveries == b.deliveries
  {
    SectionItemsPreserveOrder(s, payload);
  }

  /** An interrupted top-level push leaves its section holding the prefix it
      reached, in order, and notifies nothing. */
  lemma PartialRefillReplaces(b: Bridge, s: Section, prefix: seq<Payload>)
    ensures var c := PartialRefill(b, s, prefix);
      && |c.sections.Of(s)| == |prefix|
      && (forall i :: 0 <= i < |prefix| ==> c.sections.Of(s)[i] == SectionItem(s, prefix[i]))
      && (forall s' :: s' != s ==> c.sections.Of(s') == b.sections.Of(s'))
      && c.notified == b.notified
      && c.caches == b.caches && c.pending == b.pending && c.deliveries == b.deliveries
  {
    SectionItemsPreserveOrder(s, prefix);
  }

  // ---------------------------------------------------------------------------
  // The invariant is kept, and a dropped result stays dropped

  lemma AnswerKeeps(b: Bridge, items: seq<MediaItem>)
    requires Consistent(b)
    ensures Consistent(Answer(b, items))
    ensures forall r :: Dropped(b, r) ==> Dropped(Answer(b, items), r)
  {
    ResultsAppend(b.deliveries, Delivery(b.next, items));
    ResultsBelow(b);
  }

  /** Binding (k, id) to v makes no result but v newly pending. */
  lemma BindPending(t: Tables, k: Kind, id: string, v: ResultId)
    ensures forall r :: PendingIn(t.With(k, t.Of(k)[id := v]), r) ==> r == v || PendingIn(t, r)
  {
    var u := t.With(k, t.Of(k)[id := v]);
    forall r | PendingIn(u, r) && r != v ensures PendingIn(t, r) {
      var k2, id2 :| id2 in u.Of(k2) && u.Of(k2)[id2] == r;
      assert id2 in t.Of(k2) && t.Of(k2)[id2] == r;
    }
  }

  /** Removing (k, id) makes no result newly pending. */
  lemma RemovePending(t: Tables, k: Kind, id: string)
    ensures forall r :: PendingIn(t.With(k, t.Of(k) - {id}), r) ==> PendingIn(t, r)
  {
    var u := t.With(k, t.Of(k) - {id});
    forall r | PendingIn(u, r) ensures PendingIn(t, r) {
      var k2, id2 :| id2 in u.Of(k2) && u.Of(k2)[id2] == r;
      assert id2 in t.Of(k2) && t.Of(k2)[id2] == r;
    }
  }

  /** Enlisting keeps the invariant, drops the result pending under (k, id)
      before, if any, and keeps every dropped result dropped. */
  lemma EnlistKeeps(b: Bridge, k: Kind, id: string)
    requires Consistent(b)
    ensures Consistent(Enlist(b, k, id))
    ensures id in b.pending.Of(k) ==> Dropped(Enlist(b, k, id), b.pending.Of(k)[id])
    ensures forall r :: Dropped(b, r) ==> Dropped(Enlist(b, k, id), r)
  {
    var c := Enlist(b, k, id);
    BindPending(b.pending, k, id, b.next);
    ResultsBelow(b);
    if id in b.pending.Of(k) {
      var p := b.pending.Of(k)[id];
      forall k2, id2 | id2 in c.pending.Of(k2) ensures c.pending.Of(k2)[id2] != p {
        if k2 != k || id2 != id {
          assert c.pending.Of(k2)[id2] == b.pending.Of(k2)[id2];
        }
      }
    }
  }

  lemma ResolveKeeps(b: Bridge, k: Kind, id: string, items: seq<MediaItem>)
    requires Consistent(b)
    ensures Consistent(Resolve(b, k, id, items))
    ensures forall r :: Dropped(b, r) ==> Dropped(Resolve(b, k, id, items), r)
  {
    if id in b.pending.Of(k) {
      var c := Resolve(b, k, id, items);
      var r := b.pending.Of(k)[id];
      ResultsAppend(b.deliveries, Delivery(r, items));
      RemovePending(b.pending, k, id);
      forall k2, id2 | id2 in c.pending.Of(k2) ensures c.pending.Of(k2)[id2] != r && c.pending.Of(k2)[id2] == b.pending.Of(k2)[id2] {
      }
    }
  }

  /** Every load keeps the invariant and every dropped result dropped; a miss
      drops the result that was pending for the same id. */
  lemma LoadKeeps(b: Bridge, parentId: string)
    requires Consistent(b)
    ensures Consistent(Load(b, parentId))
    ensures forall r :: Dropped(b, r) ==> Dropped(Load(b, parentId), r)
    ensures Listing(b, RouteOf(parentId)).None? && RouteOf(parentId).id in b.pending.Of(RouteOf(parentId).kind) ==>
      Dropped(Load(b, parentId), b.pending.Of(RouteOf(parentId).kind)[RouteOf(parentId).id])
  {
    var route := RouteOf(parentId);
    if route.BranchNode? && route.id !in b.caches.Of(route.kind) {
      EnlistKeeps(b, route.kind, route.id);
    } else {
      AnswerKeeps(b, Listing(b, route).value);
    }
  }

  lemma PushKeeps(b: Bridge, k: Kind, id: string, payload: seq<Payload>)
    requires Consistent(b)
    ensures Consistent(Push(b, k, id, payload))
    ensures forall r :: Dropped(b, r) ==> Dropped(Push(b, k, id, payload), r)
  {
    var items := BranchItems(k, payload);
    ResolveKeeps(b.(caches := b.caches.With(k, b.caches.Of(k)[id := items])), k, id, items);
  }

  lemma RefillKeeps(b: Bridge, s: Section, payload: seq<Payload>)
    requires Consistent(b)
    ensures Consistent(Refill(b, s, payload))
    ensures forall r :: Dropped(b, r) ==> Dropped(Refill(b, s, payload), r)
  {
    var c := Refill(b, s, payload);
    assert c.deliveries == b.deliveries && c.pending == b.pending && c.next == b.next && c.owner == b.owner;
  }

  lemma PartialRefillKeeps(b: Bridge, s: Section, prefix: seq<Payload>)
    requires Consistent(b)
    ensures Consistent(PartialRefill(b, s, prefix))
    ensures forall r :: Dropped(b, r) ==> Dropped(PartialRefill(b, s, prefix), r)
  {
    var c := PartialRefill(b, s, prefix);
    assert c.deliveries == b.deliveries && c.pending == b.pending && c.next == b.next && c.owner == b.owner;
  }

  lemma FireKeeps(b: Bridge, t: Timer)
    requires Consistent(b) && t in b.timers && t.deadline <= b.now
    ensures Consistent(Fire(b, t))
    ensures forall r :: Dropped(b, r) ==> Dropped(Fire(b, t), r)
  {
    ResolveKeeps(b.(timers := b.timers - multiset{t}), t.kind, t.id, []);
  }

  // ---------------------------------------------------------------------------
  // Every pending result has a timer due within the timeout

  /** Each pending entry has a timer for its kind and id armed no later than
      ten seconds from now: no miss can wait forever. */
  ghost predicate Armed(b: Bridge)
  {
    forall k, id :: id in b.pending.Of(k) ==> exists d :: Timer(k, id, d) in b.timers && d <= b.now + LoadTimeoutMs
  }

  lemma LoadArmed(b: Bridge, parentId: string)
    requires Armed(b)
    ensures Armed(Load(b, parentId))
  {
    var c := Load(b, parentId);
    var route := RouteOf(parentId);
    if route.BranchNode? && route.id !in b.caches.Of(route.kind) {
      var t := Timer(route.kind, route.id, b.now + LoadTimeoutMs);
      assert c.timers == b.timers + multiset{t};
      forall k, id | id in c.pending.Of(k)
        ensures exists d :: Timer(k, id, d) in c.timers && d <= c.now + LoadTimeoutMs
      {
        if k == route.kind && id == route.id {
          assert t in c.timers;
        } else {
          assert id in b.pending.Of(k);
          var d :| Timer(k, id, d) in b.timers && d <= b.now + LoadTimeoutMs;
          assert Timer(k, id, d) in c.timers;
        }
      }
    } else {
      assert c.pending == b.pending && c.timers == b.timers;
    }
  }

  lemma ResolveArmed(b: Bridge, k: Kind, id: string, items: seq<MediaItem>)
    requires Armed(b)
    ensures Armed(Resolve(b, k, id, items))
  {
    var c := Resolve(b, k, id, items);
    forall k', id' | id' in c.pending.Of(k')
      ensures exists d :: Timer(k', id', d) in c.timers && d <= c.now + LoadTimeoutMs
    {
      assert id' in b.pending.Of(k');
    }
  }

  lemma PushArmed(b: Bridge, k: Kind, id: string, payload: seq<Payload>)
    requires Armed(b)
    ensures Armed(Push(b, k, id, payload))
  {
    var items := BranchItems(k, payload);
    ResolveArmed(b.(caches := b.caches.With(k, b.caches.Of(k)[id := items])), k, id, items);
  }

  lemma FireArmed(b: Bridge, t: Timer)
    requires Armed(b) && t in b.timers && t.deadline <= b.now
    ensures Armed(Fire(b, t))
  {
    var c := Fire(b, t);
    forall k, id | id in c.pending.Of(k)
      ensures exists d :: Timer(k, id, d) in c.timers && d <= c.now + LoadTimeoutMs
    {
      assert (k, id) != (t.kind, t.id);
      assert id in b.pending.Of(k);
      var d :| Timer(k, id, d) in b.timers && d <= b.now + LoadTimeoutMs;
      assert Timer(k, id, d) != t;
      assert Timer(k, id, d) in c.timers;
    }
  }

  lemma AdvanceArmed(b: Bridge, dt: nat)
    requires Armed(b)
    ensures Armed(Advance(b, dt))
  {
    var c := Advance(b, dt);
    forall k, id | id in c.pending.Of(k)
      ensures exists d :: Timer(k, id, d) in c.timers && d <= c.now + LoadTimeoutMs
    {
      var d :| Timer(k, id, d) in b.timers && d <= b.now + LoadTimeoutMs;
    }
  }

  lemma RefillArmed(b: Bridge, s: Section, payload: seq<Payload>)
    requires Armed(b)
    ensures Armed(Refill(b, s, payload))
  {
    var c := Refill(b, s, payload);
    assert c.pending == b.pending && c.timers == b.timers && c.now == b.now;
  }

  lemma PartialRefillArmed(b: Bridge, s: Section, prefix: seq<Payload>)
    requires Armed(b)
    ensures Armed(PartialRefill(b, s, prefix))
  {
    var c := PartialRefill(b, s, prefix);
    assert c.pending == b.pending && c.timers == b.timers && c.now == b.now;
  }

  /** Forward progress: once ten seconds pass, a timer of every pending entry
      is due, and firing it answers the waiting result with the empty list. */
  lemma PendingTimesOut(b: Bridge, k: Kind, id: string)
    requires Armed(b) && id in b.pending.Of(k)
    ensures exists t :: (t in b.timers && t.kind == k && t.id == id && t.deadline <= Advance(b, LoadTimeoutMs).now &&
                         Fire(Advance(b, LoadTimeoutMs), t).deliveries == b.deliveries + [Delivery(b.pending.Of(k)[id], [])])
  {
    var d :| Timer(k, id, d) in b.timers && d <= b.now + LoadTimeoutMs;
    var t := Timer(k, id, d);
    var c := Advance(b, LoadTimeoutMs);
    assert c.pending == b.pending && c.timers == b.timers;
    assert Fire(c, t).deliveries == b.deliveries + [Delivery(b.pending.Of(k)[id], [])];
  }

  // ---------------------------------------------------------------------------
  // Timelines

  /** A miss answered by a push within the timeout: the waiting result gets the
      pushed list, and the timer, firing later, finds nothing to answer. */
  lemma PushInTime(b: Bridge, k: Kind, id: string, payload: seq<Payload>, dt: nat)
    requires id !in b.caches.Of(k) && dt >= LoadTimeoutMs
    ensures var b1 := Load(b, Prefix(k) + id);
      var b2 := Push(b1, k, id, payload);
      var b3 := Advance(b2, dt);
      && b2.deliveries == b.deliveries + [Delivery(b.next, BranchItems(k, payload))]
      && Timer(k, id, b.now + LoadTimeoutMs) in b3.timers
      && Fire(b3, Timer(k, id, b.now + LoadTimeoutMs)).deliveries == b2.deliveries
  {
    BranchIdRoundTrip(k, id);
  }

  /** A miss nobody answers: after ten seconds the timer answers the result
      with the empty list, and a push that arrives later fills the cache but
      answers nothing. */
  lemma TimeoutAnswersEmpty(b: Bridge, k: Kind, id: string, payload: seq<Payload>)
    requires id !in b.caches.Of(k)
    ensures var b1 := Advance(Load(b, Prefix(k) + id), LoadTimeoutMs);
      && Timer(k, id, b.now + LoadTimeoutMs) in b1.timers
      && var b2 := Fire(b1, Timer(k, id, b.now + LoadTimeoutMs));
      && b2.deliveries == b.deliveries + [Delivery(b.next, [])]
      && b2.pending.Of(k) == b.pending.Of(k) - {id}
      && Push(b2, k, id, payload).deliveries == b2.deliveries
      && Push(b2, k, id, payload).caches.Of(k)[id] == BranchItems(k, payload)
  {
    BranchIdRoundTrip(k, id);
  }

  /** A cached empty list is a hit: it is answered at once and nothing is
      fetched. */
  lemma CachedEmptyIsHit(b: Bridge, k: Kind, id: string)
    requires id in b.caches.Of(k) && b.caches.Of(k)[id] == []
    ensures Load(b, Prefix(k) + id).deliveries == b.deliveries + [Delivery(b.next, [])]
    ensures Fetch(b, Prefix(k) + id).None?
    ensures Load(b, Prefix(k) + id).pending == b.pending
  {
    BranchIdRoundTrip(k, id);
  }

  /** Two misses for the same id before any answer: the first result is
      dropped for good, whatever happens next, and a push answers only the
      second. */
  lemma SecondMissDropsFirst(b: Bridge, k: Kind, id: string, payload: seq<Payload>)
    requires Consistent(b) && id !in b.caches.Of(k)
    ensures var b2 := Load(Load(b, Prefix(k) + id), Prefix(k) + id);
      && Consistent(b2)
      && Dropped(b2, b.next)
      && Dropped(Push(b2, k, id, payload), b.next)
      && Push(b2, k, id, payload).deliveries == b.deliveries + [Delivery(b.next + 1, BranchItems(k, payload))]
  {
    BranchIdRoundTrip(k, id);
    var p := Prefix(k) + id;
    var b1 := Load(b, p);
    LoadKeeps(b, p);
    LoadKeeps(b1, p);
    PushKeeps(Load(b1, p), k, id, payload);
  }

  /** Timers are never cancelled: when a second miss overwrote the first, the
      first miss's timer answers the second result with the empty list as
      soon as the first deadline passes, however little the second has
      waited. */
  lemma OverwrittenMissTimesOutEarly(b: Bridge, k: Kind, id: string, gap: nat)
    requires id !in b.caches.Of(k) && gap < LoadTimeoutMs
    ensures var b2 := Load(Advance(Load(b, Prefix(k) + id), gap), Prefix(k) + id);
      var b3 := Advance(b2, LoadTimeoutMs - gap);
      && Timer(k, id, b.now + LoadTimeoutMs) in b3.timers
      && Fire(b3, Timer(k, id, b.now + LoadTimeoutMs)).deliveries == b.deliveries + [Delivery(b.next + 1, [])]
  {
    BranchIdRoundTrip(k, id);
  }

  // ---------------------------------------------------------------------------
  // Transport controls

  /** The transport controls of the media session callback. */
  datatype Transport = Play | Pause | Stop | SkipNext | SkipPrevious | SeekTo(position: int) | PlayFromMediaId(mediaId: Option<string>)

  /** The command a transport control sends, if any: a play-from-media-id
      request without a media id sends nothing. */
  function TransportCommand(t: Transport): (r: Option<(string, Option<Payload>)>)
    ensures r.None? <==> t == PlayFromMediaId(None)
    ensures t.SeekTo? ==> r == Some(("seekTo", Some(map["position" := Int(t.position)])))
    ensures t.PlayFromMediaId? && t.mediaId.Some? ==> r == Some(("playFromMediaId", Some(map["mediaId" := Str(t.mediaId.value)])))
    ensures !t.SeekTo? && !t.PlayFromMediaId? ==> r.Some? && r.value.1.None?
  {
    match t
    case Play => Some(("play", None))
    case Pause => Some(("pause", None))
    case Stop => Some(("stop", None))
    case SkipNext => Some(("skipNext", None))
    case SkipPrevious => Some(("skipPrevious", None))
    case SeekTo(pos) => Some(("seekTo", Some(map["position" := Int(pos)])))
    case PlayFromMediaId(id) =>
      if id.Some? then Some(("playFromMediaId", Some(map["mediaId" := Str(id.value)]))) else None
  }

  /** What `sendCommand` hands to an attached sink for a fetch, if anything. */
  function Outgoing(f: Option<(string, Payload)>, attached: bool): seq<Payload>
  {
    if f.Some? && attached then [Envelope("command", f.value.0, Some(f.value.1))] else []
  }

  // ---------------------------------------------------------------------------
  // The service object

  class MusicService {
    /** The plugin `sendCommand` goes through. */
    const plugin: AutoPlugin.AutoPlugin

    /** The main dispatcher's clock, in milliseconds. */
    var now: int

    var recentSongs: seq<MediaItem>
    var albums: seq<MediaItem>
    var artists: seq<MediaItem>
    var playlists: seq<MediaItem>

    var albumSongsCache: map<string, seq<MediaItem>>
    var artistAlbumsCache: map<string, seq<MediaItem>>
    var playlistSongsCache: map<string, seq<MediaItem>>

    var pendingAlbumResults: map<string, ResultId>
    var pendingArtistResults: map<string, ResultId>
    var pendingPlaylistResults: map<string, ResultId>

    /** The timers launched and not yet fired. */
    var timers: multiset<Timer>
    /** Every result delivered so far, oldest first. */
    var deliveries: seq<Delivery>
    /** The parent ids passed to `notifyChildrenChanged`, oldest first. */
    var notified: seq<string>
    /** The identity the next `onLoadChildren` result gets. */
    var nextResult: ResultId
    ghost var owner: map<ResultId, (Kind, string)>

    var currentSongId: Option<string>
    var currentTitle: string
    var currentArtist: string
    var currentAlbum: string
    var currentArtworkUrl: Option<string>
    var currentDuration: int
    var currentPosition: int
    var isPlaying: bool

    function Sections(): PerSection<seq<MediaItem>>
      reads this`recentSongs, this`albums, this`artists, this`playlists
    {
      PerSection(recentSongs, albums, artists, playlists)
    }

    function Caches(): PerKind<map<string, seq<MediaItem>>>
      reads this`albumSongsCache, this`artistAlbumsCache, this`playlistSongsCache
    {
      PerKind(albumSongsCache, artistAlbumsCache, playlistSongsCache)
    }

    function Pendings(): Tables
      reads this`pendingAlbumResults, this`pendingArtistResults, this`pendingPlaylistResults
    {
      PerKind(pendingAlbumResults, pendingArtistResults, pendingPlaylistResults)
    }

    /** The bridge state the fields hold. */
    ghost function Model(): Bridge
      reads this`recentSongs, this`albums, this`artists, this`playlists,
            this`albumSongsCache, this`artistAlbumsCache, this`playlistSongsCache,
            this`pendingAlbumResults, this`pendingArtistResults, this`pendingPlaylistResults,
            this`timers, this`deliveries, this`notified, this`nextResult, this`owner, this`now
    {
      Bridge(Sections(), Caches(), Pendings(), timers, deliveries, notified, nextResult, owner, now)
    }

    ghost function Playback(): (Option<string>, string, string, string, Option<string>, int, int, bool)
      reads this`currentSongId, this`currentTitle, this`currentArtist, this`currentAlbum,
            this`currentArtworkUrl, this`currentDuration, this`currentPosition, this`isPlaying
    {
      (currentSongId, currentTitle, currentArtist, currentAlbum, currentArtworkUrl, currentDuration, currentPosition, isPlaying)
    }

    ghost predicate Valid()
      reads this`recentSongs, this`albums, this`artists, this`playlists,
            this`albumSongsCache, this`artistAlbumsCache, this`playlistSongsCache,
            this`pendingAlbumResults, this`pendingArtistResults, this`pendingPlaylistResults,
            this`timers, this`deliveries, this`notified, this`nextResult, this`owner, this`now
    {
      Consistent(Model()) && Armed(Model())
    }

    constructor (plugin: AutoPlugin.AutoPlugin)
      ensures Valid() && this.plugin == plugin
      ensures Model() == Bridge(PerSection([], [], [], []), PerKind(map[], map[], map[]), PerKind(map[], map[], map[]),
                                multiset{}, [], [], 0, map[], 0)
    {
      this.plugin := plugin;
      now := 0;
      recentSongs, albums, artists, playlists := [], [], [], [];
      albumSongsCache, artistAlbumsCache, playlistSongsCache := map[], map[], map[];
      pendingAlbumResults, pendingArtistResults, pendingPlaylistResults := map[], map[], map[];
      timers, deliveries, notified, nextResult := multiset{}, [], [], 0;
      owner := map[];
      currentSongId, currentTitle, currentArtist, currentAlbum := None, "", "", "";
      currentArtworkUrl, currentDuration, currentPosition, isPlaying := None, 0, 0, false;
    }

    // -------------------------------------------------------------------------
    // Field helpers

    method SetPending(k: Kind, m: map<string, ResultId>)
      modifies this`pendingAlbumResults, this`pendingArtistResults, this`pendingPlaylistResults
      ensures Pendings() == old(Pendings()).With(k, m)
    {
      match k {
        case Album => pendingAlbumResults := m;
        case Artist => pendingArtistResults := m;
        case Playlist => pendingPlaylistResults := m;
      }
    }

    method SetCache(k: Kind, m: map<string, seq<MediaItem>>)
      modifies this`albumSongsCache, this`artistAlbumsCache, this`playlistSongsCache
      ensures Caches() == old(Caches()).With(k, m)
    {
      match k {
        case Album => albumSongsCache := m;
        case Artist => artistAlbumsCache := m;
        case Playlist => playlistSongsCache := m;
      }
    }

    method SetSection(s: Section, items: seq<MediaItem>)
      modifies this`recentSongs, this`albums, this`artists, this`playlists
      ensures Sections() == old(Sections()).With(s, items)
    {
      match s {
        case Recent => recentSongs := items;
        case Albums => albums := items;
        case Artists => artists := items;
        case Playlists => playlists := items;
      }
    }

    // -------------------------------------------------------------------------
    // Browse requests

    /** `onLoadChildren(parentId, result)` for a fresh result, which is
        returned; a miss also sends its fetch command through the plugin. */
    method LoadChildren(parentId: string) returns (rid: ResultId)
      requires Valid()
      modifies this`nextResult, this`owner, this`deliveries, this`timers, this`pendingAlbumResults, this`pendingArtistResults, this`pendingPlaylistResults, plugin
      ensures Valid()
      ensures rid == old(nextResult)
      ensures Model() == Load(old(Model()), parentId)
      ensures plugin.sinkAttached == old(plugin.sinkAttached)
      ensures plugin.sent == old(plugin.sent) + Outgoing(Fetch(old(Model()), parentId), plugin.sinkAttached)
    {
      LoadKeeps(Model(), parentId);
      LoadArmed(Model(), parentId);
      var route := RouteOf(parentId);
      match route {
        case RootNode => rid := Deliver(RootItems());
        case SectionNode(s) => rid := Deliver(Sections().Of(s));
        case Unknown => rid := Deliver([]);
        case BranchNode(k, id) => rid := LoadBranch(k, id);
      }
    }

    method LoadBranch(k: Kind, id: string) returns (rid: ResultId)
      modifies this`nextResult, this`owner, this`deliveries, this`timers, this`pendingAlbumResults, this`pendingArtistResults, this`pendingPlaylistResults, plugin
      ensures rid == old(nextResult)
      ensures Model() == Visit(old(Model()), k, id)
      ensures plugin.sinkAttached == old(plugin.sinkAttached)
      ensures plugin.sent == old(plugin.sent) +
        (if id !in old(Caches()).Of(k) && plugin.sinkAttached then [Envelope("command", CommandName(k), Some(FetchArguments(k, id)))] else [])
    {
      if id in Caches().Of(k) {
        rid := Deliver(Caches().Of(k)[id]);
      } else {
        rid := Miss(k, id);
      }
    }

    method Miss(k: Kind, id: string) returns (rid: ResultId)
      modifies this`nextResult, this`owner, this`timers, this`pendingAlbumResults, this`pendingArtistResults, this`pendingPlaylistResults, plugin
      ensures rid == old(nextResult)
      ensures Model() == Wait(old(Model()), k, id)
      ensures plugin.sinkAttached == old(plugin.sinkAttached)
      ensures plugin.sent == old(plugin.sent) +
        (if plugin.sinkAttached then [Envelope("command", CommandName(k), Some(FetchArguments(k, id)))] else [])
    {
      rid := Register(k, id);
      plugin.SendCommand(CommandName(k), Some(FetchArguments(k, id)));
      timers := timers + multiset{Timer(k, id, now + LoadTimeoutMs)};
    }

    method Deliver(items: seq<MediaItem>) returns (rid: ResultId)
      modifies this`nextResult, this`deliveries
      ensures rid == old(nextResult)
      ensures Model() == Answer(old(Model()), items)
    {
      rid := nextResult;
      nextResult := nextResult + 1;
      deliveries := deliveries + [Delivery(rid, items)];
    }

    method Register(k: Kind, id: string) returns (rid: ResultId)
      modifies this`nextResult, this`owner, this`pendingAlbumResults, this`pendingArtistResults, this`pendingPlaylistResults
      ensures rid == old(nextResult)
      ensures Model() == Enlist(old(Model()), k, id)
    {
      rid := nextResult;
      SetPending(k, Pendings().Of(k)[id := rid]);
      nextResult := nextResult + 1;
      owner := owner[rid := (k, id)];
    }

    // -------------------------------------------------------------------------
    // Resolution

    method ResolvePending(k: Kind, id: string, items: seq<MediaItem>)
      modifies this`pendingAlbumResults, this`pendingArtistResults, this`pendingPlaylistResults, this`deliveries
      ensures Model() == Resolve(old(Model()), k, id, items)
    {
      if id in Pendings().Of(k) {
        var r := Pendings().Of(k)[id];
        SetPending(k, Pendings().Of(k) - {id});
        deliveries := deliveries + [Delivery(r, items)];
      }
    }

    /** `updateAlbumSongs`, `updateArtistAlbums` and `updatePlaylistSongs`. */
    method UpdateBranch(k: Kind, id: string, payload: seq<Payload>)
      requires Valid()
      modifies this`deliveries, this`albumSongsCache, this`artistAlbumsCache, this`playlistSongsCache, this`pendingAlbumResults, this`pendingArtistResults, this`pendingPlaylistResults
      ensures Valid()
      ensures Model() == Push(old(Model()), k, id, payload)
      ensures Playback() == old(Playback())
    {
      PushKeeps(Model(), k, id, payload);
      PushArmed(Model(), k, id, payload);
      StoreAndResolve(k, id, BranchItems(k, payload));
    }

    /** The cache entry takes the items, then the pending result gets them. */
    method StoreAndResolve(k: Kind, id: string, items: seq<MediaItem>)
      modifies this`deliveries, this`albumSongsCache, this`artistAlbumsCache, this`playlistSongsCache, this`pendingAlbumResults, this`pendingArtistResults, this`pendingPlaylistResults
      ensures Model() == Resolve(old(Model()).(caches := old(Model()).caches.With(k, old(Caches()).Of(k)[id := items])), k, id, items)
    {
      SetCache(k, Caches().Of(k)[id := items]);
      ResolvePending(k, id, items);
    }

    /** The continuation of a timer launched by a miss, once its delay has passed. */
    method FireTimer(t: Timer)
      requires Valid() && t in timers && t.deadline <= now
      modifies this`deliveries, this`timers, this`pendingAlbumResults, this`pendingArtistResults, this`pendingPlaylistResults
      ensures Valid()
      ensures Model() == Fire(old(Model()), t)
    {
      FireKeeps(Model(), t);
      FireArmed(Model(), t);
      timers := timers - multiset{t};
      ResolvePending(t.kind, t.id, []);
    }

    method Tick(dt: nat)
      requires Valid()
      modifies this`now
      ensures Valid()
      ensures Model() == Advance(old(Model()), dt)
    {
      AdvanceArmed(Model(), dt);
      now := now + dt;
    }

    // -------------------------------------------------------------------------
    // Top-level sections

    /** `updateRecentSongs`, `updateAlbums`, `updateArtists` and `updatePlaylists`. */
    method UpdateSection(s: Section, payload: seq<Payload>)
      requires Valid()
      modifies this`recentSongs, this`albums, this`artists, this`playlists, this`notified
      ensures Valid()
      ensures Model() == Refill(old(Model()), s, payload)
      ensures Playback() == old(Playback())
    {
      RefillKeeps(Model(), s, payload);
      RefillArmed(Model(), s, payload);
      FillAndNotify(s, payload);
    }

    /** A top-level update whose list reaches an element that is not a map
        after `prefix`: the cast of that element throws out of the loop,
        before `notifyChildrenChanged`. */
    method AbortSection(s: Section, prefix: seq<Payload>)
      requires Valid()
      modifies this`recentSongs, this`albums, this`artists, this`playlists
      ensures Valid()
      ensures Model() == PartialRefill(old(Model()), s, prefix)
      ensures Playback() == old(Playback())
    {
      PartialRefillKeeps(Model(), s, prefix);
      PartialRefillArmed(Model(), s, prefix);
      FillSection(s, prefix);
    }

    method FillAndNotify(s: Section, payload: seq<Payload>)
      modifies this`recentSongs, this`albums, this`artists, this`playlists, this`notified
      ensures Model() == Refill(old(Model()), s, payload)
    {
      FillSection(s, payload);
      notified := notified + [SectionId(s)];
    }

    /** `list.clear()` followed by one `list.add(...)` per payload entry. */
    method FillSection(s: Section, payload: seq<Payload>)
      modifies this`recentSongs, this`albums, this`artists, this`playlists
      ensures Sections() == old(Sections()).With(s, SectionItems(s, payload))
    {
      SetSection(s, []);
      var i := 0;
      while i < |payload|
        invariant 0 <= i <= |payload|
        invariant Sections() == old(Sections()).With(s, SectionItems(s, payload[..i]))
      {
        assert payload[..i + 1] == payload[..i] + [payload[i]];
        SectionItemsSnoc(s, payload[..i], payload[i]);
        SetSection(s, Sections().Of(s) + [SectionItem(s, payload[i])]);
        i := i + 1;
      }
      assert payload[..i] == payload;
    }

    // -------------------------------------------------------------------------
    // Playback

    /** `updatePlaybackState`: the eight playback fields take the given values. */
    method UpdatePlaybackState(songId: Option<string>, title: string, artist: string, album: string,
                               artworkUrl: Option<string>, duration: int, position: int, playing: bool)
      modifies this`currentSongId, this`currentTitle, this`currentArtist, this`currentAlbum,
               this`currentArtworkUrl, this`currentDuration, this`currentPosition, this`isPlaying
      ensures Playback() == (songId, title, artist, album, artworkUrl, duration, position, playing)
    {
      currentSongId, currentTitle, currentArtist, currentAlbum := songId, title, artist, album;
      currentArtworkUrl, currentDuration, currentPosition, isPlaying := artworkUrl, duration, position, playing;
    }

    /** The media session callback: each transport control sends its command. */
    method OnTransport(t: Transport)
      modifies plugin
      ensures plugin.sinkAttached == old(plugin.sinkAttached)
      ensures plugin.sent == old(plugin.sent) +
        (if TransportCommand(t).Some? && plugin.sinkAttached
         then [Envelope("command", TransportCommand(t).value.0, TransportCommand(t).value.1)] else [])
    {
      var c := TransportCommand(t);
      if c.Some? {
        plugin.SendCommand(c.value.0, c.value.1);
      }
    }
  }
}
