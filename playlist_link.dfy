/** A playlist entry of the navigation sidebar
    (src/ui/sidebars/navbar/playlists/PlaylistLink.tsx): what a drop adds to
    the playlist, which drags it accepts, and how it is drawn. */
module PlaylistLink {
  import opened Wrappers
  import opened Text
  import opened DragTypes
  import opened MenuStates

  datatype Track = Track(id: int)

  /** A dropped object: its own `id` and its `track` field, which playlist
      and play-queue items carry and bare tracks do not. */
  datatype Dropped = Dropped(id: int, track: Option<Track>)

  /** The external call a drop makes: `addToPlaylist(playlistId, ids)`. */
  datatype AddToPlaylist = AddToPlaylist(playlistId: int, trackIds: seq<int>)

  predicate WrapsTracks(itemType: Option<DragType>) {
    itemType == Some(PlaylistItem) || itemType == Some(PlayQueueItem)
  }

  predicate AllWrapped(items: seq<Dropped>) {
    forall k :: 0 <= k < |items| ==> items[k].track.Some?
  }

  /** handleDrop: playlist and play-queue items are unwrapped to their
      tracks, anything else is taken as tracks already; the playlist then
      receives the track ids in drop order. Reading `.id` of a missing track
      throws. */
  function HandleDrop(playlistId: int, items: seq<Dropped>, itemType: Option<DragType>): (r: Result<AddToPlaylist>)
    ensures r.Ok? <==> !WrapsTracks(itemType) || AllWrapped(items)
    ensures r.Ok? ==> r.value.playlistId == playlistId && |r.value.trackIds| == |items|
    ensures r.Ok? && WrapsTracks(itemType) ==>
              forall k :: 0 <= k < |items| ==> r.value.trackIds[k] == items[k].track.value.id
    ensures r.Ok? && !WrapsTracks(itemType) ==>
              forall k :: 0 <= k < |items| ==> r.value.trackIds[k] == items[k].id
  {
    if WrapsTracks(itemType) then
      if AllWrapped(items) then
        Ok(AddToPlaylist(playlistId, seq(|items|, k requires 0 <= k < |items| => items[k].track.value.id)))
      else Err("Cannot read properties of undefined (reading 'id')")
    else Ok(AddToPlaylist(playlistId, seq(|items|, k requires 0 <= k < |items| => items[k].id)))
  }

  /** Dropping tracks, or the same tracks wrapped as playlist or queue items,
      adds the same ids. */
  lemma WrappedAndBareAgree(playlistId: int, tracks: seq<Track>, wrappers: seq<Dropped>, itemType: DragType)
    requires itemType == PlaylistItem || itemType == PlayQueueItem
    requires |wrappers| == |tracks|
    requires forall k :: 0 <= k < |tracks| ==> wrappers[k].track == Some(tracks[k])
    ensures HandleDrop(playlistId, wrappers, Some(itemType))
            == HandleDrop(playlistId, seq(|tracks|, k requires 0 <= k < |tracks| => Dropped(tracks[k].id, None)),
                          Some(DragType.Track))
  {
    var bare := seq(|tracks|, k requires 0 <= k < |tracks| => Dropped(tracks[k].id, None));
    var a := HandleDrop(playlistId, wrappers, Some(itemType));
    var b := HandleDrop(playlistId, bare, Some(DragType.Track));
    assert AllWrapped(wrappers);
    forall k | 0 <= k < |tracks| ensures a.value.trackIds[k] == b.value.trackIds[k] {
    }
    assert a.value.trackIds == b.value.trackIds;
  }

  /** The drag types the drop target accepts. */
  function Accepted(): (s: set<DragType>)
    ensures |s| == 3
  {
    assert PlaylistItem != PlayQueueItem && PlaylistItem != DragType.Track && PlayQueueItem != DragType.Track;
    {PlaylistItem, PlayQueueItem, DragType.Track}
  }

  /** Albums, artists and playlists cannot be dropped on a playlist. */
  lemma AcceptsOnlyTrackKinds(t: DragType)
    ensures t in Accepted() <==> t == PlaylistItem || t == PlayQueueItem || t == DragType.Track
  {
  }

  datatype Look = Look(dropTarget: bool, indentPx: nat)

  /** A smart playlist gets no drop target and a deeper indent (34px against 12px). */
  function LinkLook(smart: bool): (l: Look)
    ensures l.dropTarget <==> !smart
    ensures l.indentPx == if smart then 34 else 12
  {
    Look(!smart, if smart then 34 else 12)
  }

  /** The title is highlighted while the link is active or while the open
      context menu targets this playlist. */
  function TitleHighlighted(isActive: bool, menuState: Option<MenuState>, menuTarget: Option<int>,
                            playlistId: int): (h: bool)
    ensures h <==> isActive || (menuState == Some(Open) && menuTarget == Some(playlistId))
  {
    isActive || (menuState == Some(Open) && menuTarget.Some? && menuTarget.value == playlistId)
  }

  /** The link target: `/playlists/<id>`, from which the playlist's id reads back. */
  function LinkTarget(playlistId: int): (to: string)
    ensures |to| > |"/playlists/"| && to[..|"/playlists/"|] == "/playlists/"
    ensures to[|"/playlists/"|..] == IntToString(playlistId)
  {
    "/playlists/" + IntToString(playlistId)
  }

  /** Distinct playlists link to distinct pages. */
  lemma LinkTargetInjective(a: int, b: int)
    ensures LinkTarget(a) == LinkTarget(b) <==> a == b
  {
    if LinkTarget(a) == LinkTarget(b) {
      IntToStringInjective(a, b);
    }
  }
}
