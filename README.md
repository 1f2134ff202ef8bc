# hex-music-player: decision rules of the desktop client, in Dafny

This project models the self-contained decision rules of the renderer of a
desktop music-player client for a Plex-compatible media server, and proves
properties of them:

- **Transport controls** (`MediaButtons.tsx`), module `MediaButtons`. It
  derives now-playing, next and previous from the cached play queue; this
  includes the `findIndex` quirk: an unknown selected id makes the first
  item "next" while nothing plays. It models the repeat setting and its player
  flags, the repeat button's none → all → one → none cycle, the 5000 ms
  restart-or-step-back rule, routing of taskbar events and which buttons are
  disabled. The handlers are methods of a `Transport` class. It holds the
  player's `loop`, `singleMode` and `playlist.trackNumber`, the stored
  repeat setting, `disableNext` / `disablePrev`, the cached player state,
  and the log of external calls (settings writes and refetches, timeline
  reports, player methods, queue refetches) in the order made. The
  component mounts over whatever player flags exist. `Valid()` says the
  flags agree with the stored setting; `handleRepeat` establishes it, and
  every handler keeps it.
- **Playback dispatch** (`usePlayback.ts`), module `Playback`. It covers the
  server URI each `play…` builder builds, and `playSwitch` as a function
  that returns the one external call made: start a new queue, add to the
  current queue, or nothing.
- **Sort string of the artist-tracks header**, module `ArtistTracksHeader`:
  how `handleSort` rewrites `"key:order"`, and what the chip and menu show.
- **Drag payload of track tables**, module `TrackDragDrop`.
- **Search top result**, module `TopResult`: drag type, text, link state,
  font size, badge, link targets and background colour.
- **Artist card**, **chart row**, **playlist link**, **app initialisation**
  and **track subtext**: modules `ArtistCard`, `ChartRow`, `PlaylistLink`,
  `InitializeApp` and `Subtext`.

Shared modules: `Wrappers` (`Option` for `undefined`, `Result` for thrown
errors, the truthiness of an optional string), `MenuStates` (a context
menu's state), `Timeline` (the report `updateTimeline` sends), `Text` (JavaScript's integer interpolation, ASCII `toLowerCase`,
`split` and `join`), `DragTypes`.

Behaviour of the code that a reader might not expect:

- `handleNext` sets `disableNext` and resets repeat to none before it checks
  for a now-playing item. Without one, `disableNext` stays set and nothing
  else happens. The taskbar can reach this case when the selected id is
  missing from a non-empty queue (`NextReachableWithoutNowPlaying`).
- `handlePlayPause` tests the player state it captured twice. Updating the
  cache does not change that value, so exactly one branch runs.
- An empty `tracks` array is truthy, so `ADD_TRACKS` with `[]` still calls
  `addToQueue`. An empty route id is falsy, so `playPlaylistAtTrack` does
  nothing with it.
- A server with no connections makes initialisation race an empty list of
  promises. That promise never settles (`NeverSettles`).

## Model

| member | source | states |
|---|---|---|
| MediaButtons.FindIndex | src/ui/footer/MediaButtons.tsx:44 | first index whose id matches, -1 exactly when none matches |
| MediaButtons.ItemAt | src/ui/footer/MediaButtons.tsx:45-47 | array indexing is defined exactly inside the array and yields that element |
| MediaButtons.NeighboursAtSelected | src/ui/footer/MediaButtons.tsx:43-48 | selected id first at i: now playing is items[i]; next exists iff i < len-1 and is items[i+1]; prev exists iff i > 0 and is items[i-1] |
| MediaButtons.NeighboursWhenSelectedAbsent | src/ui/footer/MediaButtons.tsx:44-47 | when the selected id is absent, now playing and prev are absent and next is items[0] (when there is one) |
| MediaButtons.QueueNeighbours | src/ui/footer/MediaButtons.tsx:43-47 | no neighbours without a cached queue; a previous track never exists without a now-playing item |
| MediaButtons.RepeatFlags | src/ui/footer/MediaButtons.tsx:65-78 | loop is set iff repeat is not none; singleMode is set iff repeat is one |
| MediaButtons.RepeatFlagsInjective | src/ui/footer/MediaButtons.tsx:65-78 | the two flags determine the repeat setting |
| MediaButtons.SingleModeImpliesLoop | src/ui/footer/MediaButtons.tsx:65-78 | singleMode is never set without loop |
| MediaButtons.CycleRepeat | src/ui/footer/MediaButtons.tsx:307-353 | the button for none stores all, the one for all stores one, the one for one stores none |
| MediaButtons.RepeatButtonTarget | src/ui/footer/MediaButtons.tsx:307-353 | a repeat button is rendered exactly when a setting is stored, and a click on it stores the next setting of the cycle |
| MediaButtons.RepeatCyclePeriod | src/ui/footer/MediaButtons.tsx:307-353 | three presses return to the start and two do not |
| MediaButtons.Restarts | src/ui/footer/MediaButtons.tsx:121 | prev restarts whenever there is no previous track or the position is past 5000 ms, and steps back only with a previous track at 5000 ms or less |
| MediaButtons.PlayButtonIcon | src/ui/footer/MediaButtons.tsx:50-58 | stop icon iff something plays and Ctrl/Meta is held; else pause iff playing; else play |
| MediaButtons.TaskbarRoute | src/ui/footer/MediaButtons.tsx:217-228 | play-pause reaches its handler iff something plays; prev iff not disablePrev; next iff not disableNext and a next track exists |
| MediaButtons.UnknownEventIgnored | src/ui/footer/MediaButtons.tsx:217-228 | any other event name reaches no handler |
| MediaButtons.Disabled | src/ui/footer/MediaButtons.tsx:258-305 | shuffle disabled iff nothing plays; prev iff queueId 0 or disablePrev; play/pause iff queueId 0; next iff queueId 0, disableNext or no next track |
| MediaButtons.NoQueueDisablesTransport | src/ui/footer/MediaButtons.tsx:277-299 | with queueId 0, prev, play/pause and next are disabled |
| MediaButtons.NextButtonAgreesWithTaskbar | src/ui/footer/MediaButtons.tsx:226-299 | with a queue, the next button is enabled exactly when the taskbar "next" event is routed |
| MediaButtons.StateAfterNext | src/ui/footer/MediaButtons.tsx:96-104 | after next: playing, position 0, duration of the next track or 0 |
| MediaButtons.StateAfterRestart | src/ui/footer/MediaButtons.tsx:144-147 | after a restart: position 0, duration and isPlaying unchanged |
| MediaButtons.StateAfterStepBack | src/ui/footer/MediaButtons.tsx:162-170 | after stepping back: position 0, isPlaying unchanged, duration of the previous track or 0 |
| MediaButtons.StateAfterToggle | src/ui/footer/MediaButtons.tsx:199-213 | play/pause negates isPlaying (undefined counts as false) and keeps duration and position |
| MediaButtons.ToggleTwice | src/ui/footer/MediaButtons.tsx:193-214 | toggling twice restores a state whose isPlaying is set |
| MediaButtons.NextCalls | src/ui/footer/MediaButtons.tsx:85-95 | the stop report comes first and the track update last; the player is advanced and never cued; play is called iff it was not playing; the next item is reported playing at 0 |
| MediaButtons.RestartCalls | src/ui/footer/MediaButtons.tsx:122-141 | the player is cued and never advanced; pause is called iff it was not playing; without a now-playing item nothing is reported |
| MediaButtons.StepBackCalls | src/ui/footer/MediaButtons.tsx:154-161 | the stop report comes first and the track update last; the player is neither cued nor advanced; the previous item is reported playing at 0 and its timer started |
| MediaButtons.PlayPauseCalls | src/ui/footer/MediaButtons.tsx:184-214 | the app is reset iff Ctrl is held; the now-playing item is reported stopped (Ctrl), paused (was playing) or playing (was not) at the cached position |
| MediaButtons.RestartReportsStopThenZero | src/ui/footer/MediaButtons.tsx:122-143 | a restart first reports the item stopped at the cached position, and its last report is at time 0 |
| MediaButtons.PlayPauseTouchesPlayerOnce | src/ui/footer/MediaButtons.tsx:184-214 | without Ctrl, exactly one of pause/play is called, first; with Ctrl the last call is the app reset |
| MediaButtons.Transport.constructor | src/ui/footer/MediaButtons.tsx:32-37 | mounting sets both disable flags false over whatever player flags, setting and cached state exist, and calls nothing |
| MediaButtons.Transport.HandleRepeat | src/ui/footer/MediaButtons.tsx:60-79 | stores the setting, writes and refetches the settings, and sets loop/singleMode to its flags; nothing else changes |
| MediaButtons.Transport.HandleNext | src/ui/footer/MediaButtons.tsx:81-106 | repeat becomes none; with a now-playing item the calls are the repeat calls then NextCalls and the state becomes StateAfterNext; otherwise only the repeat calls are made and disableNext stays set |
| MediaButtons.Transport.Advance | src/ui/footer/MediaButtons.tsx:85-105 | the now-playing branch of handleNext: NextCalls appended, StateAfterNext cached, the advanced track number, next enabled again, repeat and flags kept |
| MediaButtons.Transport.HandlePrev | src/ui/footer/MediaButtons.tsx:118-172 | restart (no prev, or > 5000 ms at the first read): trackNumber, repeat and flags kept, RestartCalls made, position 0. Otherwise: repeat becomes none, StepBackCalls made with the position read after the reset, StateAfterStepBack. disablePrev ends clear; flags that agreed with the setting still agree |
| MediaButtons.Transport.Restart | src/ui/footer/MediaButtons.tsx:121-149 | the restart path: RestartCalls appended, the track number restored after the cue, position 0, prev enabled again |
| MediaButtons.Transport.StepBack | src/ui/footer/MediaButtons.tsx:152-171 | the step-back path after the repeat reset: StepBackCalls appended, StateAfterStepBack cached, prev enabled again, track number and flags kept |
| MediaButtons.Transport.HandlePlayPause | src/ui/footer/MediaButtons.tsx:184-215 | without Ctrl isPlaying is negated; with Ctrl the state is kept and timer clear, stop report and reset are made |
| MediaButtons.NextReachableWithoutNowPlaying | src/ui/footer/MediaButtons.tsx:81-106 | a missing selected id in a non-empty queue routes "next" while nothing plays, so disableNext is left set |
| Playback.ServerPrefix | src/hooks/usePlayback.ts:36 | the server URI starts with server:// and ends with /com.plexapp.plugins.library, and the server's identifier reads back from between them |
| Playback.ServerPrefixInjective | src/hooks/usePlayback.ts:36 | two contexts share a server prefix exactly when they name the same server |
| Playback.PlayAlbumCall | src/hooks/usePlayback.ts:38-42 | new queue on the server prefix followed by the album key, shuffle as given, no start key |
| Playback.PlayAlbumAtTrackCall | src/hooks/usePlayback.ts:44-48 | new queue on the prefix followed by the track's parentKey, starting at the track's key |
| Playback.PlayArtistCall | src/hooks/usePlayback.ts:50-54 | new queue on the prefix followed by the artist key |
| Playback.StationPath | src/hooks/usePlayback.ts:58 | the radio path reads back as /library/metadata/, the item id, /station/ followed by the uuid, and ?type=10&maxDegreesOfSeparation=-1 |
| Playback.PlayArtistRadioCall | src/hooks/usePlayback.ts:56-61 | new queue on the prefix followed by the artist's station path, never shuffled |
| Playback.StationPathInjective | src/hooks/usePlayback.ts:56-61 | distinct ids give distinct station paths |
| Playback.PlayPlaylistCall | src/hooks/usePlayback.ts:63-67 | new queue on the prefix followed by key + "&playlistID=" + id |
| Playback.PlayPlaylistAtTrackCall | src/hooks/usePlayback.ts:69-76 | no call iff the route id is missing or empty; else /playlists/<routeId>/items starting at the track |
| Playback.PlayTrackCall | src/hooks/usePlayback.ts:88-92 | new queue on the prefix followed by the track key |
| Playback.PlayTrackRadioCall | src/hooks/usePlayback.ts:94-99 | new queue on the track's station path, never shuffled |
| Playback.TrackIds | src/hooks/usePlayback.ts:106 | one rendered id per track, in order |
| Playback.TracksPathIds | src/hooks/usePlayback.ts:106-107 | the path after /library/metadata/ splits at ',' into exactly the track ids in order |
| Playback.PlayTracksCall | src/hooks/usePlayback.ts:101-110 | new queue on the library URI of the tracks path, with the given shuffle and start key |
| Playback.PlayUriCall | src/hooks/usePlayback.ts:112-120 | new queue on the library URI of the given path, with the given shuffle and start key |
| Playback.PlaySwitch | src/hooks/usePlayback.ts:122-242 | an add action starts a queue only when queueId is 0; an add lands next or at the end as its action says; DO_NOTHING and unknown actions make no call |
| Playback.AddTrackDispatch | src/hooks/usePlayback.ts:125-150 | no call iff no track; queueId 0 plays the track (unshuffled); otherwise the track is added next (ADD_TRACK) or at the end (ADD_TRACK_LAST) |
| Playback.AddTracksDispatch | src/hooks/usePlayback.ts:151-192 | an album takes precedence over tracks: with queueId 0 it starts a queue on the album, otherwise the whole album is added next or at the end; a tracks list is always added; no call iff neither is given |
| Playback.PlayActionNeedsParam | src/hooks/usePlayback.ts:195-239 | each PLAY_* action makes a call iff its required parameter is present |
| Playback.RadioNeverShuffles | src/hooks/usePlayback.ts:210-234 | radio actions never shuffle |
| Playback.ShufflePassedThrough | src/hooks/usePlayback.ts:195-239 | every non-radio PLAY_* action, playlist-at-track included, passes shuffle, defaulting to false |
| Playback.PlayDispatch | src/hooks/usePlayback.ts:195-238 | each PLAY_* action with its parameter present calls its own builder with that parameter, shuffle defaulting to false, and for PLAY_TRACKS the key defaulting to "" |
| Playback.AlbumAtTrackStartsAtTrack | src/hooks/usePlayback.ts:200-204 | PLAY_ALBUM_AT_TRACK queues the parent album and starts at the track key |
| Playback.PlayQueueItemCalls | src/hooks/usePlayback.ts:78-86 | the current item is reported stopped at the position first (if any), the chosen item is reported playing at 0, each report carrying the item's track, and the player is reloaded last; five calls with a current item, four without |
| ArtistTracksHeader.SortOptions | src/routes/artist/subroutes/artist-tracks/Header.tsx:24-35 | ten entries pairing the labels with the sort keys in order |
| ArtistTracksHeader.HandleSort | src/routes/artist/subroutes/artist-tracks/Header.tsx:51-59 | same key: key + ":" + flipped order (asc becomes desc, anything else asc); other key: key + ":" + existing order |
| ArtistTracksHeader.HandleSortReadBack | src/routes/artist/subroutes/artist-tracks/Header.tsx:51-59 | read back, the new sort string has the chosen key and the new order |
| ArtistTracksHeader.HandleSortTwice | src/routes/artist/subroutes/artist-tracks/Header.tsx:53-56 | choosing the current key twice restores key:asc or key:desc |
| ArtistTracksHeader.FindOption | src/routes/artist/subroutes/artist-tracks/Header.tsx:141 | finds an option with the key iff one exists, and it is the first such option |
| ArtistTracksHeader.FindOptionFirst | src/routes/artist/subroutes/artist-tracks/Header.tsx:141 | of options before which none has the same key, find returns exactly that option |
| ArtistTracksHeader.ChipLabel | src/routes/artist/subroutes/artist-tracks/Header.tsx:141 | a label is shown iff some option's key equals the part before ':', and it is the label of the first such option |
| ArtistTracksHeader.ChipArrowUp | src/routes/artist/subroutes/artist-tracks/Header.tsx:143 | the chip's arrow points up iff the order part is asc, which requires a ':' in the sort |
| ArtistTracksHeader.ChipAfterChoice | src/routes/artist/subroutes/artist-tracks/Header.tsx:51-143 | after choosing an entry the chip shows that entry's label, and its arrow points up iff the new order is asc |
| ArtistTracksHeader.MenuArrowUp | src/routes/artist/subroutes/artist-tracks/Header.tsx:220-224 | only the current key's entry has an arrow; it points up iff the order part is desc, so never together with the chip's |
| ArtistTracksHeader.MenuArrowForetellsChip | src/routes/artist/subroutes/artist-tracks/Header.tsx:51-224 | choosing the entry whose menu arrow points up leaves the chip's arrow up; from an ascending sort both point down |
| ArtistTracksHeader.ChipClickOpens | src/routes/artist/subroutes/artist-tracks/Header.tsx:149-159 | a click opens the menu iff its state is unknown or closed |
| TrackDragDrop.RowAt | src/hooks/useTrackDragDrop.ts:21 | a row is found iff the index is set and inside the table |
| TrackDragDrop.DragPayload | src/hooks/useTrackDragDrop.ts:19-27 | hovered row not selected, or the only selection: just the hovered item; otherwise the items at selectedRows in that order |
| TrackDragDrop.PayloadLength | src/hooks/useTrackDragDrop.ts:19-27 | the payload has 1 or len(selectedRows) entries |
| TrackDragDrop.PayloadHoldsHovered | src/hooks/useTrackDragDrop.ts:19-27 | the hovered row is always in the payload |
| TrackDragDrop.CanDrag | src/hooks/useTrackDragDrop.ts:28 | dragging is allowed iff at most 10 rows are selected |
| TrackDragDrop.DraggablePayloadBounded | src/hooks/useTrackDragDrop.ts:19-28 | when dragging is allowed (at most 10 selected) the payload has at most 10 entries |
| TopResult.GetDragType | src/ui/titlebar/search/results/TopResult.tsx:38-48 | artist/album/track map to their drag types; any other type fails |
| TopResult.DragTypeInjective | src/ui/titlebar/search/results/TopResult.tsx:38-48 | distinct kinds never share a drag type |
| TopResult.AdditionalText | src/ui/titlebar/search/results/TopResult.tsx:82-97 | artist: the release count text; album: parentTitle; track: originalTitle if non-empty else grandparentTitle; other kinds fail |
| TopResult.ReleaseCountPlural | src/ui/titlebar/search/results/TopResult.tsx:84-86 | the count, then " releases" iff childCount > 1, else " release" |
| TopResult.ResultLinkState | src/ui/titlebar/search/results/TopResult.tsx:99-117 | artist: own guid/title plus release-date-descending sort; album: parent; track: grandparent; other kinds fail |
| TopResult.FontSizeTenths | src/ui/titlebar/search/results/TopResult.tsx:119-131 | 2.0rem iff length <= 15, 1.8rem iff 15 < length <= 35, 1.6rem iff 35 < length <= 55, 1.4rem iff length > 55 |
| TopResult.FontSize | src/ui/titlebar/search/results/TopResult.tsx:119-131 | the CSS value is "2.0rem", "1.8rem", "1.6rem" or "1.4rem" on exactly those length ranges |
| TopResult.FontSizeNonIncreasing | src/ui/titlebar/search/results/TopResult.tsx:119-131 | a longer title never has a larger size |
| TopResult.TypeBadge | src/ui/titlebar/search/results/TopResult.tsx:133-152 | a badge naming the kind for artist/album/track, none otherwise |
| TopResult.TitleTarget | src/ui/titlebar/search/results/TopResult.tsx:243-247 | /artists/id for an artist, /albums/id for an album, /albums/parentId for a track; '/' exactly for other kinds |
| TopResult.TitleLinkState | src/ui/titlebar/search/results/TopResult.tsx:242 | only an artist's title link carries state, and it is the artist's linkState (guid, title, release-date-descending sort) |
| TopResult.AlbumAndTrackTargetsAgree | src/ui/titlebar/search/results/TopResult.tsx:243-247 | an album's and a track's title links coincide iff the track's parent is that album |
| TopResult.AlbumAndTrackSubtitlesAgree | src/ui/titlebar/search/results/TopResult.tsx:264-268 | an album's and a track's second-line links coincide iff the album's artist is the track's album artist |
| TopResult.SubtitleTarget | src/ui/titlebar/search/results/TopResult.tsx:264-268 | /artists/id/discography, /artists/parentId, /artists/grandparentId; '/' exactly for other kinds |
| TopResult.BackgroundColor | src/ui/titlebar/search/results/TopResult.tsx:154-163 | palette's light-vibrant colour (the default's on error or no palette) + '66' in light mode, 'e6' otherwise |
| TopResult.BackgroundAlphaSuffix | src/ui/titlebar/search/results/TopResult.tsx:154-163 | the colour always ends in the mode's two-character alpha |
| ArtistCard.MenuOpen | src/components/artist/ArtistCard.tsx:35 | the menu is open on the card iff the artist's id is among the menu targets |
| ArtistCard.GenrePieces | src/components/artist/ArtistCard.tsx:101-103 | at most the first two genres, lowercased, each but the last followed by ', ' |
| ArtistCard.GenreSubtitleText | src/components/artist/ArtistCard.tsx:101-103 | the rendered text is the first two lowercased genres joined by ', ' |
| ArtistCard.ViewCountText | src/components/artist/ArtistCard.tsx:104-108 | "unplayed" exactly when the play count is missing or 0 |
| ArtistCard.ViewCountPlural | src/components/artist/ArtistCard.tsx:105-107 | "N plays in genre" iff N > 1, else "N play in genre" |
| ArtistCard.Subtitle | src/components/artist/ArtistCard.tsx:101-108 | a full artist shows the genre pieces (at most two), a preview the single view-count text |
| ArtistCard.Look | src/components/artist/ArtistCard.tsx:50-73 | selected background iff open or menuOpen, and hover motion exactly in the other case |
| ArtistCard.CardTarget | src/components/artist/ArtistCard.tsx:92 | the card links to /artists/ followed by the artist's id, which reads back from the link |
| ArtistCard.CardTargetInjective | src/components/artist/ArtistCard.tsx:92 | cards of distinct artists link to distinct pages |
| ChartRow.Flags | src/routes/charts/Row.tsx:19-22 | playing iff the now-playing track id equals the row's; selected iff index in selectedRows; selUp/selDown iff selected and index-1/index+1 selected |
| ChartRow.NeighbourFlagsAgree | src/routes/charts/Row.tsx:21-22 | row i joins downward iff row i+1 joins upward |
| ChartRow.DisplayIndex | src/routes/charts/Row.tsx:47 | the shown number is the zero-based index plus one |
| ChartRow.DoubleClickCall | src/routes/charts/Row.tsx:24-26 | plays the chart URI unshuffled starting at the track key |
| ChartRow.HoverIndex.MouseEnter | src/routes/charts/Row.tsx:28-30 | the shared hover index becomes this row's index |
| PlaylistLink.HandleDrop | src/ui/sidebars/navbar/playlists/PlaylistLink.tsx:28-39 | playlist/queue items are unwrapped to their tracks, others used as tracks; one id per dropped item, in order; a missing track fails |
| PlaylistLink.WrappedAndBareAgree | src/ui/sidebars/navbar/playlists/PlaylistLink.tsx:32-38 | dropping wrapped items adds the same ids as dropping their tracks |
| PlaylistLink.Accepted | src/ui/sidebars/navbar/playlists/PlaylistLink.tsx:42-46 | exactly three drag types are accepted |
| PlaylistLink.AcceptsOnlyTrackKinds | src/ui/sidebars/navbar/playlists/PlaylistLink.tsx:42-46 | accepted iff PLAYLIST_ITEM, PLAYQUEUE_ITEM or TRACK |
| PlaylistLink.LinkLook | src/ui/sidebars/navbar/playlists/PlaylistLink.tsx:60-67 | a drop target iff not smart; indent 34px for smart, 12px otherwise |
| PlaylistLink.TitleHighlighted | src/ui/sidebars/navbar/playlists/PlaylistLink.tsx:75-77 | highlighted iff active, or the menu is open on this playlist |
| PlaylistLink.LinkTarget | src/ui/sidebars/navbar/playlists/PlaylistLink.tsx:61 | the link is /playlists/ followed by the playlist's id, which reads back from the link |
| PlaylistLink.LinkTargetInjective | src/ui/sidebars/navbar/playlists/PlaylistLink.tsx:61 | distinct playlists link to distinct pages |
| InitializeApp.NormalizedPlatform | src/scripts/initialize-app.ts:7-14 | darwin, linux and win32 map to macOS, Linux and Windows; anything else fails |
| InitializeApp.FindServer | src/scripts/initialize-app.ts:29 | found iff some device has the configured name, and it is the first such device |
| InitializeApp.Initialize | src/scripts/initialize-app.ts:16-52 | an unknown platform or a failed device request gives undefined, never an error |
| InitializeApp.InitializeSucceeds | src/scripts/initialize-app.ts:17-47 | success iff platform known, devices arrive, one matches, it has connections and the first answer succeeds; then account, first matching server and library on the answering connection |
| InitializeApp.NoMatchingServer | src/scripts/initialize-app.ts:29-32 | no device with the configured name gives undefined |
| InitializeApp.NoConnectionsNeverSettles | src/scripts/initialize-app.ts:33-42 | a matching server without connections never settles |
| Subtext.ArtistLabel | src/components/subtext/Subtext.tsx:13 | originalTitle when non-empty, else grandparentTitle |
| Subtext.Pieces | src/components/subtext/Subtext.tsx:6-29 | artist link to /artists/grandparentId; separator and album link to /albums/parentId showing parentTitle iff showAlbum |
| Subtext.SeparatorIffAlbum | src/components/subtext/Subtext.tsx:15-28 | the ' — ' separator appears iff showAlbum |
| Subtext.StyleFor | src/components/subtext/Subtext.tsx:9-21 | active links get pointer events disabled, inactive links no style |

## Left out

- The PIN login flow (`src/routes/login/Login.tsx`) relies on network polling, racing connections, timers and Electron config writes. Its platform mapping is the same as `NormalizedPlatform`.
- The network half of initialisation is taken as inputs: `account.servers()`, the `axios.get` race and the `JSON.parse` of the answer. These inputs are the device list (absent on failure) and the first settled request.
- InitializeApp.Initialize: the race's answer is given as the connection that answered. The model does not tie that connection to the server's own list.
- The player object, `useQueue` and the React Query cache are not shown in the source. Their calls are recorded as `Call`, `Dispatch` or `ItemCall` values, and what they do is not modelled.
- MediaButtons.Transport.HandleNext: where `player.next()` leaves the current playlist position is a parameter. The player's own bookkeeping is not modelled.
- MediaButtons.Transport.HandlePlayPause: with Ctrl held, the effect of `player.resetApp()` on the player and its cached state is not modelled. The call is only recorded.
- Each handler runs as one step. The interleaving of `await` round-trips with other events is not modelled. `disableNext` / `disablePrev` only guard against that interleaving.
- `uuid.v4()` in radio URIs is an input (`Context.stationUuid`). `library.buildLibraryURI` is not shown, so it is recorded as `LibraryUri(clientIdentifier, path)`.
- The string values of the `DragTypes`, `PlayActions`, `PlexSortKeys` and `SortOrders` enums (`src/types/enums`) are not part of this model. They are datatypes here, or parameters (sort keys, release-date key, descending order).
- The type guards `isArtist`, `isAlbum`, `isTrack` and `isPlayQueueItem` (`src/types/type-guards`) are not part of this model. They are taken to test the result's kind, which makes them variants of a datatype.
- `TopResult.TitleTarget` and `TopResult.SubtitleTarget` return '/' for every other kind. In a JavaScript object lookup, a type string such as "constructor" would find an inherited property instead.
- JavaScript numbers (positions in milliseconds, durations, ids, play counts) are modelled as unbounded integers. Fractional positions and the float comparison `> 5000` are not modelled.
- `toLowerCase` is modelled on ASCII letters only. There is no Unicode case mapping.
- Styling, layout and icons are left out: colours other than the top result's background, `selectBorderRadius`, the float `IMAGE_SIZE * 0.70 - 24` and the thumbnails. So are the hover and tooltip state of the top result, Search.tsx (debounce, focus, history) and the presentation-only files.
- The playlist, album and artist-tracks row components are left out. Their selection logic lives in `useRowSelection`, which is not part of this model.
