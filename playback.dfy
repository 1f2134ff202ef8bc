/** Playback dispatch (src/hooks/usePlayback.ts): the server URIs each
    `play…` builder hands to the queue service, and `playSwitch`, which picks
    between starting a new play queue and adding to the current one. Every
    builder is modelled by the external call it makes, as a `Dispatch` value:
    `StartQueue` stands for `playQueue(uri, shuffle[, key])` followed by
    `player.initTracks`, and `AddToQueue` for `addToQueue({newTracks,
    sendToast: true, next|end: true})` followed by `updateQueue` and
    `player.updateTracks(…, 'update')`. */
module Playback {
  import opened Wrappers
  import opened Text
  import opened Timeline

  datatype Album = Album(key: string)
  datatype Artist = Artist(id: int, key: string)
  datatype Playlist = Playlist(id: int, key: string)
  datatype Track = Track(id: int, key: string, parentKey: string)

  /** What the hook reads from its surroundings: the server's and the
      account client's identifiers, the current queue id (0 when there is no
      queue), the route's `:id` parameter, and the fresh uuid that
      `uuid.v4()` would return. */
  datatype Context = Context(
    serverIdentifier: string,
    accountIdentifier: string,
    queueId: int,
    routeId: Option<string>,
    stationUuid: string)

  /** A queue URI: either built here from the server's identifier, or built
      by `library.buildLibraryURI(clientIdentifier, path)` (not shown). */
  datatype QueueUri = ServerUri(uri: string) | LibraryUri(clientIdentifier: string, path: string)

  datatype NewTracks = OneTrack(track: Track) | WholeAlbum(album: Album) | TrackList(tracks: seq<Track>)
  datatype Placement = PlayNext | AtEnd

  datatype Dispatch =
    | NoCall
    | StartQueue(uri: QueueUri, shuffle: bool, startKey: Option<string>)
    | AddToQueue(newTracks: NewTracks, placement: Placement)

  /** The optional arguments of playSwitch. */
  datatype PlayParams = PlayParams(
    album: Option<Album>,
    artist: Option<Artist>,
    key: Option<string>,
    playlist: Option<Playlist>,
    shuffle: Option<bool>,
    track: Option<Track>,
    tracks: Option<seq<Track>>)

  datatype PlayAction =
    | AddTrack | AddTrackLast | AddTracks | AddTracksLast | DoNothing
    | PlayAlbum | PlayAlbumAtTrack | PlayArtist | PlayArtistRadio
    | PlayPlaylist | PlayPlaylistAtTrack | PlayTrack | PlayTrackRadio | PlayTracks
    | OtherAction

  const LibraryPluginPath := "/com.plexapp.plugins.library"
  const MetadataPath := "/library/metadata/"
  const StationQuery := "?type=10&maxDegreesOfSeparation=-1"

  const ServerScheme := "server://"

  /** `server://<clientIdentifier>/com.plexapp.plugins.library`: the server's
      identifier reads back from between the scheme and the plugin path. */
  function ServerPrefix(ctx: Context): (p: string)
    ensures |p| == |ServerScheme| + |ctx.serverIdentifier| + |LibraryPluginPath|
    ensures p[..|ServerScheme|] == ServerScheme
    ensures p[|p| - |LibraryPluginPath|..] == LibraryPluginPath
    ensures p[|ServerScheme|..|p| - |LibraryPluginPath|] == ctx.serverIdentifier
  {
    ServerScheme + ctx.serverIdentifier + LibraryPluginPath
  }

  /** Two contexts share a server prefix exactly when they name the same
      server, so a queue URI built here always addresses the hook's own server. */
  lemma ServerPrefixInjective(a: Context, b: Context)
    ensures ServerPrefix(a) == ServerPrefix(b) <==> a.serverIdentifier == b.serverIdentifier
  {
    if ServerPrefix(a) == ServerPrefix(b) {
      var p := ServerPrefix(a);
      assert a.serverIdentifier == p[|ServerScheme|..|p| - |LibraryPluginPath|] == b.serverIdentifier;
    }
  }

  /** A new queue on a server URI made of the server prefix followed by `path`. */
  predicate StartsServerQueue(ctx: Context, d: Dispatch, path: string) {
    d.StartQueue? && d.uri.ServerUri?
    && |ServerPrefix(ctx)| <= |d.uri.uri|
    && d.uri.uri[..|ServerPrefix(ctx)|] == ServerPrefix(ctx)
    && d.uri.uri[|ServerPrefix(ctx)|..] == path
  }

  /** playAlbum: the album's key under the server prefix. */
  function PlayAlbumCall(ctx: Context, album: Album, shuffle: bool): (d: Dispatch)
    ensures StartsServerQueue(ctx, d, album.key) && d.shuffle == shuffle && d.startKey.None?
  {
    StartQueue(ServerUri(ServerPrefix(ctx) + album.key), shuffle, None)
  }

  /** playAlbumAtTrack: the album is the track's parent, playback starts at the track. */
  function PlayAlbumAtTrackCall(ctx: Context, track: Track, shuffle: bool): (d: Dispatch)
    ensures StartsServerQueue(ctx, d, track.parentKey) && d.shuffle == shuffle && d.startKey == Some(track.key)
  {
    StartQueue(ServerUri(ServerPrefix(ctx) + track.parentKey), shuffle, Some(track.key))
  }

  /** playArtist: the artist's key under the server prefix. */
  function PlayArtistCall(ctx: Context, artist: Artist, shuffle: bool): (d: Dispatch)
    ensures StartsServerQueue(ctx, d, artist.key) && d.shuffle == shuffle && d.startKey.None?
  {
    StartQueue(ServerUri(ServerPrefix(ctx) + artist.key), shuffle, None)
  }

  /** The station path for a library item: `/library/metadata/<id>/station/<uuid>?…`.
      The item's id and the station part read back from between the fixed
      prefix and the query. */
  function StationPath(id: int, uuid: string): (p: string)
    ensures |p| == |MetadataPath| + |IntToString(id)| + |"/station/"| + |uuid| + |StationQuery|
    ensures p[..|MetadataPath|] == MetadataPath
    ensures p[|MetadataPath|..|MetadataPath| + |IntToString(id)|] == IntToString(id)
    ensures p[|MetadataPath| + |IntToString(id)|..|p| - |StationQuery|] == "/station/" + uuid
    ensures p[|p| - |StationQuery|..] == StationQuery
  {
    var s, mid := IntToString(id), "/station/" + uuid;
    FourParts(MetadataPath, s, mid, StationQuery);
    assert MetadataPath + s + "/station/" + uuid + StationQuery == MetadataPath + s + mid + StationQuery;
    MetadataPath + s + mid + StationQuery
  }

  /** The four pieces of a + b + c + d read back by position. */
  lemma FourParts(a: string, b: string, c: string, d: string)
    ensures var p := a + b + c + d;
            |p| == |a| + |b| + |c| + |d|
            && p[..|a|] == a && p[|a|..|a| + |b|] == b
            && p[|a| + |b|..|p| - |d|] == c && p[|p| - |d|..] == d
  {
    var p := a + b + c + d;
    assert p == a + (b + (c + d));
    assert p[|a|..] == b + (c + d);
    assert p[|a| + |b|..] == c + d;
  }

  /** playArtistRadio: never shuffled. */
  function PlayArtistRadioCall(ctx: Context, artist: Artist): (d: Dispatch)
    ensures StartsServerQueue(ctx, d, StationPath(artist.id, ctx.stationUuid)) && !d.shuffle && d.startKey.None?
  {
    StartQueue(ServerUri(ServerPrefix(ctx) + StationPath(artist.id, ctx.stationUuid)), false, None)
  }

  /** playPlaylist: `<serverUri><key>&playlistID=<id>`. */
  function PlayPlaylistCall(ctx: Context, playlist: Playlist, shuffle: bool): (d: Dispatch)
    ensures StartsServerQueue(ctx, d, playlist.key + "&playlistID=" + IntToString(playlist.id))
    ensures d.shuffle == shuffle && d.startKey.None?
  {
    StartQueue(ServerUri(ServerPrefix(ctx) + playlist.key + "&playlistID=" + IntToString(playlist.id)),
               shuffle, None)
  }

  /** playPlaylistAtTrack: nothing without a (non-empty) route id. */
  function PlayPlaylistAtTrackCall(ctx: Context, track: Track, shuffle: bool): (d: Dispatch)
    ensures d == NoCall <==> ctx.routeId.None? || ctx.routeId == Some("")
    ensures d != NoCall ==> StartsServerQueue(ctx, d, "/playlists/" + ctx.routeId.value + "/items")
                            && d.shuffle == shuffle && d.startKey == Some(track.key)
  {
    match ctx.routeId
    case Some(id) =>
      if id == "" then NoCall
      else StartQueue(ServerUri(ServerPrefix(ctx) + "/playlists/" + id + "/items"), shuffle, Some(track.key))
    case None => NoCall
  }

  /** playTrack: the track's key under the server prefix. */
  function PlayTrackCall(ctx: Context, track: Track, shuffle: bool): (d: Dispatch)
    ensures StartsServerQueue(ctx, d, track.key) && d.shuffle == shuffle && d.startKey.None?
  {
    StartQueue(ServerUri(ServerPrefix(ctx) + track.key), shuffle, None)
  }

  /** playTrackRadio: never shuffled. */
  function PlayTrackRadioCall(ctx: Context, track: Track): (d: Dispatch)
    ensures StartsServerQueue(ctx, d, StationPath(track.id, ctx.stationUuid)) && !d.shuffle && d.startKey.None?
  {
    StartQueue(ServerUri(ServerPrefix(ctx) + StationPath(track.id, ctx.stationUuid)), false, None)
  }

  function TrackIds(tracks: seq<Track>): (ids: seq<string>)
    ensures |ids| == |tracks|
    ensures forall k :: 0 <= k < |tracks| ==> ids[k] == IntToString(tracks[k].id)
  {
    seq(|tracks|, k requires 0 <= k < |tracks| => IntToString(tracks[k].id))
  }

  /** `/library/metadata/<id>,<id>,…` for the tracks in the given order. */
  function TracksPath(tracks: seq<Track>): string {
    MetadataPath + Join(TrackIds(tracks), ",")
  }

  /** playTracks: a library URI for the comma-joined ids, starting at `key`. */
  function PlayTracksCall(ctx: Context, tracks: seq<Track>, shuffle: bool, key: string): (d: Dispatch)
    ensures d.StartQueue? && d.uri == LibraryUri(ctx.accountIdentifier, TracksPath(tracks))
    ensures d.shuffle == shuffle && d.startKey == Some(key)
  {
    StartQueue(LibraryUri(ctx.accountIdentifier, TracksPath(tracks)), shuffle, Some(key))
  }

  /** playUri: a library URI for an arbitrary path. */
  function PlayUriCall(ctx: Context, uri: string, shuffle: bool, key: string): (d: Dispatch)
    ensures d.StartQueue? && d.uri == LibraryUri(ctx.accountIdentifier, uri)
    ensures d.shuffle == shuffle && d.startKey == Some(key)
  {
    StartQueue(LibraryUri(ctx.accountIdentifier, uri), shuffle, Some(key))
  }

  /** The tracks path lists every track id, in order and nothing else: the part
      after `/library/metadata/` splits at ',' into exactly the rendered ids. */
  lemma TracksPathIds(tracks: seq<Track>)
    requires tracks != []
    ensures TracksPath(tracks)[..|MetadataPath|] == MetadataPath
    ensures Split(TracksPath(tracks)[|MetadataPath|..], ',') == TrackIds(tracks)
  {
    var ids := TrackIds(tracks);
    forall k | 0 <= k < |ids| ensures ',' !in ids[k] {
      IntToStringHasNoComma(tracks[k].id);
    }
    assert TracksPath(tracks)[|MetadataPath|..] == Join(ids, ",");
    SplitJoin(ids, ',');
  }

  lemma IntToStringHasNoComma(i: int)
    ensures ',' !in IntToString(i)
  {
    if i >= 0 {
      var n: nat := i;
      assert forall k :: 0 <= k < |NatToString(n)| ==> IsDigit(NatToString(n)[k]);
    } else {
      var n: nat := -i;
      assert forall k :: 0 <= k < |NatToString(n)| ==> IsDigit(NatToString(n)[k]);
      assert IntToString(i) == "-" + NatToString(n);
    }
  }

  /** Radio URIs of distinct items differ. */
  lemma StationPathInjective(a: int, b: int, uuid: string)
    requires StationPath(a, uuid) == StationPath(b, uuid)
    ensures a == b
  {
    var p, m := StationPath(a, uuid), |MetadataPath|;
    var sa, sb := IntToString(a), IntToString(b);
    assert |sa| == |sb|;
    assert sa == p[m..m + |sa|] == sb;
    IntToStringInjective(a, b);
  }

  /** The parameter each PLAY_* action needs before it makes a call. */
  predicate HasRequiredParam(action: PlayAction, p: PlayParams) {
    match action
    case PlayAlbum => p.album.Some?
    case PlayAlbumAtTrack => p.track.Some?
    case PlayArtist => p.artist.Some?
    case PlayArtistRadio => p.artist.Some?
    case PlayPlaylist => p.playlist.Some?
    case PlayPlaylistAtTrack => p.track.Some?
    case PlayTrack => p.track.Some?
    case PlayTrackRadio => p.track.Some?
    case PlayTracks => p.tracks.Some?
    case _ => false
  }

  predicate IsAddAction(action: PlayAction) {
    action in {AddTrack, AddTrackLast, AddTracks, AddTracksLast}
  }

  /** Where an add action places what it adds. */
  function PlacementOf(action: PlayAction): Placement
    requires IsAddAction(action)
  {
    if action == AddTrack || action == AddTracks then PlayNext else AtEnd
  }

  /** playSwitch: the one external call an action and its parameters lead to. */
  function PlaySwitch(ctx: Context, action: PlayAction, p: PlayParams): (d: Dispatch)
    ensures IsAddAction(action) && d.StartQueue? ==> ctx.queueId == 0
    ensures d.AddToQueue? ==> IsAddAction(action) && d.placement == PlacementOf(action)
    ensures (action == DoNothing || action == OtherAction) ==> d == NoCall
  {
    var shuffle := p.shuffle.GetOr(false);
    match action
    case AddTrack | AddTrackLast =>
      if p.track.Some? && ctx.queueId == 0 then PlayTrackCall(ctx, p.track.value, false)
      else if p.track.Some? then AddToQueue(OneTrack(p.track.value), PlacementOf(action))
      else NoCall
    case AddTracks | AddTracksLast =>
      if p.album.Some? && ctx.queueId == 0 then PlayAlbumCall(ctx, p.album.value, false)
      else if p.album.Some? then AddToQueue(WholeAlbum(p.album.value), PlacementOf(action))
      else if p.tracks.Some? then AddToQueue(TrackList(p.tracks.value), PlacementOf(action))
      else NoCall
    case DoNothing => NoCall
    case PlayAlbum => if p.album.Some? then PlayAlbumCall(ctx, p.album.value, shuffle) else NoCall
    case PlayAlbumAtTrack =>
      if p.track.Some? then PlayAlbumAtTrackCall(ctx, p.track.value, shuffle) else NoCall
    case PlayArtist => if p.artist.Some? then PlayArtistCall(ctx, p.artist.value, shuffle) else NoCall
    case PlayArtistRadio => if p.artist.Some? then PlayArtistRadioCall(ctx, p.artist.value) else NoCall
    case PlayPlaylist => if p.playlist.Some? then PlayPlaylistCall(ctx, p.playlist.value, shuffle) else NoCall
    case PlayPlaylistAtTrack =>
      if p.track.Some? then PlayPlaylistAtTrackCall(ctx, p.track.value, shuffle) else NoCall
    case PlayTrack => if p.track.Some? then PlayTrackCall(ctx, p.track.value, shuffle) else NoCall
    case PlayTrackRadio => if p.track.Some? then PlayTrackRadioCall(ctx, p.track.value) else NoCall
    case PlayTracks =>
      if p.tracks.Some? then PlayTracksCall(ctx, p.tracks.value, shuffle, p.key.GetOr("")) else NoCall
    case OtherAction => NoCall
  }

  /** ADD_TRACK / ADD_TRACK_LAST: a track with no queue starts one from that
      track (unshuffled); with a queue it is added next or at the end. */
  lemma AddTrackDispatch(ctx: Context, action: PlayAction, p: PlayParams)
    requires action == AddTrack || action == AddTrackLast
    ensures p.track.None? <==> PlaySwitch(ctx, action, p) == NoCall
    ensures p.track.Some? && ctx.queueId == 0 ==>
              PlaySwitch(ctx, action, p) == StartQueue(ServerUri(ServerPrefix(ctx) + p.track.value.key), false, None)
    ensures p.track.Some? && ctx.queueId != 0 ==>
              PlaySwitch(ctx, action, p)
              == AddToQueue(OneTrack(p.track.value), if action == AddTrack then PlayNext else AtEnd)
  {
  }

  /** ADD_TRACKS / ADD_TRACKS_LAST: an album wins over a tracks list, only the
      album branch starts a new queue, and a tracks list is always added to
      the existing queue, whatever the queue id. */
  lemma AddTracksDispatch(ctx: Context, action: PlayAction, p: PlayParams)
    requires action == AddTracks || action == AddTracksLast
    ensures p.album.Some? ==> PlaySwitch(ctx, action, p) == PlaySwitch(ctx, action, p.(tracks := None))
    ensures p.album.Some? && ctx.queueId == 0 ==>
              PlaySwitch(ctx, action, p) == StartQueue(ServerUri(ServerPrefix(ctx) + p.album.value.key), false, None)
    ensures p.album.Some? && ctx.queueId != 0 ==>
              PlaySwitch(ctx, action, p) == AddToQueue(WholeAlbum(p.album.value), PlacementOf(action))
    ensures p.album.None? && p.tracks.Some? ==>
              PlaySwitch(ctx, action, p) == AddToQueue(TrackList(p.tracks.value), PlacementOf(action))
    ensures PlaySwitch(ctx, action, p) == NoCall <==> p.album.None? && p.tracks.None?
  {
  }

  /** Each PLAY_* action makes a call exactly when its required parameter is
      present (playlist-at-track additionally needs a route id). */
  lemma PlayActionNeedsParam(ctx: Context, action: PlayAction, p: PlayParams)
    requires !IsAddAction(action) && action != DoNothing && action != OtherAction
    requires action == PlayPlaylistAtTrack ==> ctx.routeId.Some? && ctx.routeId != Some("")
    ensures PlaySwitch(ctx, action, p) != NoCall <==> HasRequiredParam(action, p)
  {
  }

  /** Radio actions never shuffle, whatever `shuffle` says. */
  lemma RadioNeverShuffles(ctx: Context, action: PlayAction, p: PlayParams)
    requires action == PlayArtistRadio || action == PlayTrackRadio
    ensures PlaySwitch(ctx, action, p).StartQueue? ==> !PlaySwitch(ctx, action, p).shuffle
  {
  }

  /** Other PLAY_* calls take `shuffle`, defaulting to false. */
  lemma ShufflePassedThrough(ctx: Context, action: PlayAction, p: PlayParams)
    requires action in {PlayAlbum, PlayAlbumAtTrack, PlayArtist, PlayPlaylist, PlayPlaylistAtTrack, PlayTrack, PlayTracks}
    ensures PlaySwitch(ctx, action, p).StartQueue? ==> PlaySwitch(ctx, action, p).shuffle == p.shuffle.GetOr(false)
  {
  }

  /** Each PLAY_* action with its parameter present goes to its own builder,
      with `shuffle` defaulting to false and, for playTracks, `key` to "". */
  lemma PlayDispatch(ctx: Context, action: PlayAction, p: PlayParams)
    ensures action == PlayAlbum && p.album.Some? ==>
              PlaySwitch(ctx, action, p) == PlayAlbumCall(ctx, p.album.value, p.shuffle.GetOr(false))
    ensures action == PlayAlbumAtTrack && p.track.Some? ==>
              PlaySwitch(ctx, action, p) == PlayAlbumAtTrackCall(ctx, p.track.value, p.shuffle.GetOr(false))
    ensures action == PlayArtist && p.artist.Some? ==>
              PlaySwitch(ctx, action, p) == PlayArtistCall(ctx, p.artist.value, p.shuffle.GetOr(false))
    ensures action == PlayArtistRadio && p.artist.Some? ==>
              PlaySwitch(ctx, action, p) == PlayArtistRadioCall(ctx, p.artist.value)
    ensures action == PlayPlaylist && p.playlist.Some? ==>
              PlaySwitch(ctx, action, p) == PlayPlaylistCall(ctx, p.playlist.value, p.shuffle.GetOr(false))
    ensures action == PlayPlaylistAtTrack && p.track.Some? ==>
              PlaySwitch(ctx, action, p) == PlayPlaylistAtTrackCall(ctx, p.track.value, p.shuffle.GetOr(false))
    ensures action == PlayTrack && p.track.Some? ==>
              PlaySwitch(ctx, action, p) == PlayTrackCall(ctx, p.track.value, p.shuffle.GetOr(false))
    ensures action == PlayTrackRadio && p.track.Some? ==>
              PlaySwitch(ctx, action, p) == PlayTrackRadioCall(ctx, p.track.value)
    ensures action == PlayTracks && p.tracks.Some? ==>
              PlaySwitch(ctx, action, p) == PlayTracksCall(ctx, p.tracks.value, p.shuffle.GetOr(false), p.key.GetOr(""))
  {
  }

  /** playAlbumAtTrack queues the track's parent and starts at the track. */
  lemma AlbumAtTrackStartsAtTrack(ctx: Context, p: PlayParams)
    requires p.track.Some?
    ensures PlaySwitch(ctx, PlayAlbumAtTrack, p).uri == ServerUri(ServerPrefix(ctx) + p.track.value.parentKey)
    ensures PlaySwitch(ctx, PlayAlbumAtTrack, p).startKey == Some(p.track.value.key)
  {
  }

  /** A play-queue item as playQueueItem reads it: its id and its track's id. */
  datatype QueueItem = QueueItem(id: int, trackId: int)

  datatype ItemCall =
    | UpdateTimeline(update: TimelineUpdate)
    | GetQueue
    | UpdateQueue
    | InitTracks

  /** updateTimeline for an item, at a known position. */
  function Report(item: QueueItem, status: TimelineStatus, positionMs: int): ItemCall {
    UpdateTimeline(TimelineUpdate(item.id, status, Some(positionMs), item.trackId))
  }

  /** playQueueItem: stop the current item (when there is one), report the
      chosen item as playing from 0, then reload the queue into the player.
      The chosen item is always reported playing from the start, after the
      current item (if any) is reported stopped, and the player is reloaded last. */
  function PlayQueueItemCalls(nowPlaying: Option<QueueItem>, item: QueueItem, positionMs: int): (c: seq<ItemCall>)
    ensures Report(item, Playing, 0) in c && c[|c| - 1] == InitTracks
    ensures nowPlaying.Some? ==> c[0] == Report(nowPlaying.value, Stopped, positionMs)
    ensures nowPlaying.None? ==> c[0] == Report(item, Playing, 0)
    ensures |c| == (if nowPlaying.Some? then 5 else 4)
  {
    (if nowPlaying.Some? then [Report(nowPlaying.value, Stopped, positionMs)] else [])
    + [Report(item, Playing, 0), GetQueue, UpdateQueue, InitTracks]
  }
}
