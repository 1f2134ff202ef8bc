/** The "Top Result" card of the search panel
    (src/ui/titlebar/search/results/TopResult.tsx): its drag type, second
    line of text, link state, title size, type badge, link targets and
    background colour. */
module TopResult {
  import opened Wrappers
  import opened Text
  import opened DragTypes

  predicate OtherKind(kind: string) {
    kind != "artist" && kind != "album" && kind != "track"
  }

  /** The `type` of a hit that is not an artist, album or track. */
  type OtherKindName = k: string | OtherKind(k) witness "playlist"

  /** A search hit. `OtherResult` covers kinds other than artist, album and
      track (a playlist, for one). */
  datatype SearchResult =
    | ArtistResult(id: int, title: string, guid: string, childCount: int)
    | AlbumResult(id: int, title: string, parentId: int, parentGuid: string, parentTitle: string)
    | TrackResult(id: int, title: string, parentId: int, grandparentId: int, grandparentGuid: string,
                  grandparentTitle: string, originalTitle: Option<string>)
    | OtherResult(kind: OtherKindName, title: string)

  /** The result's `type` string. */
  function Kind(r: SearchResult): (k: string)
    ensures OtherKind(k) <==> r.OtherResult?
  {
    match r
    case ArtistResult(_, _, _, _) => "artist"
    case AlbumResult(_, _, _, _, _) => "album"
    case TrackResult(_, _, _, _, _, _, _) => "track"
    case OtherResult(k, _) => k
  }

  /** getDragType: artist, album and track drag as themselves; anything else throws. */
  function GetDragType(resultType: string): (r: Result<DragType>)
    ensures r.Ok? <==> !OtherKind(resultType)
    ensures resultType == "artist" ==> r == Ok(Artist)
    ensures resultType == "album" ==> r == Ok(Album)
    ensures resultType == "track" ==> r == Ok(Track)
  {
    if resultType == "artist" then Ok(Artist)
    else if resultType == "album" then Ok(Album)
    else if resultType == "track" then Ok(Track)
    else Err("no matching type")
  }

  /** Drag types per result: distinct kinds never share a drag type. */
  lemma DragTypeInjective(a: string, b: string)
    requires GetDragType(a).Ok? && GetDragType(a) == GetDragType(b)
    ensures a == b
  {
  }

  /** "N release" / "N releases". */
  function ReleaseCount(childCount: int): string {
    IntToString(childCount) + (if childCount > 1 then " releases" else " release")
  }

  /** additionalText: release count for an artist, the artist for an album,
      the track artist (or album artist) for a track; other kinds throw. */
  function AdditionalText(r: SearchResult): (t: Result<string>)
    ensures t.Ok? <==> !r.OtherResult?
    ensures r.ArtistResult? ==> t == Ok(ReleaseCount(r.childCount))
    ensures r.AlbumResult? ==> t == Ok(r.parentTitle)
    ensures r.TrackResult? && Present(r.originalTitle) ==> t == Ok(r.originalTitle.value)
    ensures r.TrackResult? && !Present(r.originalTitle) ==> t == Ok(r.grandparentTitle)
  {
    match r
    case ArtistResult(_, _, _, n) => Ok(ReleaseCount(n))
    case AlbumResult(_, _, _, _, parentTitle) => Ok(parentTitle)
    case TrackResult(_, _, _, _, _, grandparentTitle, originalTitle) =>
      Ok(if Present(originalTitle) then originalTitle.value else grandparentTitle)
    case OtherResult(_, _) => Err("no matching type")
  }

  /** The artist text is plural exactly when there is more than one release,
      and starts with the count. */
  lemma ReleaseCountPlural(n: int)
    ensures var s := IntToString(n);
            ReleaseCount(n)[..|s|] == s
            && (n > 1 <==> ReleaseCount(n)[|s|..] == " releases")
            && (n <= 1 <==> ReleaseCount(n)[|s|..] == " release")
  {
    var s := IntToString(n);
    assert ReleaseCount(n)[|s|..] == (if n > 1 then " releases" else " release");
  }

  /** The router state passed along a link. */
  datatype LinkState = LinkState(guid: string, title: string, sort: Option<string>)

  /** linkState: an artist opens its own page sorted by release date,
      descending (`[RELEASE_DATE, DESC].join('')`); an album its artist; a
      track its album artist; other kinds throw. */
  function ResultLinkState(r: SearchResult, releaseDateKey: string, descOrder: string): (s: Result<LinkState>)
    ensures s.Ok? <==> !r.OtherResult?
    ensures r.ArtistResult? ==> s == Ok(LinkState(r.guid, r.title, Some(releaseDateKey + descOrder)))
    ensures r.AlbumResult? ==> s == Ok(LinkState(r.parentGuid, r.parentTitle, None))
    ensures r.TrackResult? ==> s == Ok(LinkState(r.grandparentGuid, r.grandparentTitle, None))
  {
    match r
    case ArtistResult(_, title, guid, _) =>
      JoinPair(releaseDateKey, "", descOrder);
      assert releaseDateKey + "" + descOrder == releaseDateKey + descOrder;
      Ok(LinkState(guid, title, Some(Join([releaseDateKey, descOrder], ""))))
    case AlbumResult(_, _, _, parentGuid, parentTitle) => Ok(LinkState(parentGuid, parentTitle, None))
    case TrackResult(_, _, _, _, grandparentGuid, grandparentTitle, _) =>
      Ok(LinkState(grandparentGuid, grandparentTitle, None))
    case OtherResult(_, _) => Err("no matching type")
  }

  /** The title size in tenths of a rem: long titles are set smaller. */
  function FontSizeTenths(titleLength: nat): (t: nat)
    ensures t in {14, 16, 18, 20}
    ensures t == 20 <==> titleLength <= 15
    ensures t == 16 <==> 35 < titleLength <= 55
    ensures t == 18 <==> 15 < titleLength <= 35
    ensures t == 14 <==> titleLength > 55
  {
    if titleLength > 55 then 14
    else if titleLength > 35 then 16
    else if titleLength > 15 then 18
    else 20
  }

  /** The CSS value for the title size. */
  function FontSize(titleLength: nat): (size: string)
    ensures size == "2.0rem" <==> titleLength <= 15
    ensures size == "1.8rem" <==> 15 < titleLength <= 35
    ensures size == "1.6rem" <==> 35 < titleLength <= 55
    ensures size == "1.4rem" <==> titleLength > 55
  {
    match FontSizeTenths(titleLength)
    case 14 => "1.4rem"
    case 16 => "1.6rem"
    case 18 => "1.8rem"
    case _ => "2.0rem"
  }

  /** A longer title is never set larger. */
  lemma FontSizeNonIncreasing(a: nat, b: nat)
    requires a <= b
    ensures FontSizeTenths(b) <= FontSizeTenths(a)
  {
  }

  /** The type badge under the artwork; none for other kinds. */
  function TypeBadge(r: SearchResult): (b: Option<string>)
    ensures b.Some? <==> !r.OtherResult?
    ensures b.Some? ==> b.value == Kind(r)
  {
    match r
    case OtherResult(_, _) => None
    case _ => Some(Kind(r))
  }

  /** The title link: the artist, the album, or the track's album; '/' otherwise. */
  function TitleTarget(r: SearchResult): (to: string)
    ensures r.OtherResult? <==> to == "/"
    ensures r.ArtistResult? ==> to == "/artists/" + IntToString(r.id)
    ensures r.AlbumResult? ==> to == "/albums/" + IntToString(r.id)
    ensures r.TrackResult? ==> to == "/albums/" + IntToString(r.parentId)
  {
    match r
    case ArtistResult(id, _, _, _) => "/artists/" + IntToString(id)
    case AlbumResult(id, _, _, _, _) => "/albums/" + IntToString(id)
    case TrackResult(_, _, parentId, _, _, _, _) => "/albums/" + IntToString(parentId)
    case OtherResult(_, _) => "/"
  }

  /** Only an artist's title link carries state (null for the others). */
  function TitleLinkState(r: SearchResult, releaseDateKey: string, descOrder: string): (s: Option<LinkState>)
    ensures s.Some? <==> r.ArtistResult?
    ensures s.Some? ==> Ok(s.value) == ResultLinkState(r, releaseDateKey, descOrder)
    ensures s.Some? ==> s.value == LinkState(r.guid, r.title, Some(releaseDateKey + descOrder))
  {
    if r.ArtistResult? then Some(ResultLinkState(r, releaseDateKey, descOrder).value) else None
  }

  /** The second-line link: the artist's discography, the album's artist, or
      the track's album artist; '/' otherwise. */
  function SubtitleTarget(r: SearchResult): (to: string)
    ensures r.OtherResult? <==> to == "/"
    ensures r.ArtistResult? ==> to == "/artists/" + IntToString(r.id) + "/discography"
    ensures r.AlbumResult? ==> to == "/artists/" + IntToString(r.parentId)
    ensures r.TrackResult? ==> to == "/artists/" + IntToString(r.grandparentId)
  {
    match r
    case ArtistResult(id, _, _, _) => "/artists/" + IntToString(id) + "/discography"
    case AlbumResult(_, _, parentId, _, _) => "/artists/" + IntToString(parentId)
    case TrackResult(_, _, _, grandparentId, _, _, _) => "/artists/" + IntToString(grandparentId)
    case OtherResult(_, _) => "/"
  }

  /** An album's title link and a track's title link lead to the same page
      exactly when the track belongs to that album. */
  lemma AlbumAndTrackTargetsAgree(album: SearchResult, track: SearchResult)
    requires album.AlbumResult? && track.TrackResult?
    ensures TitleTarget(album) == TitleTarget(track) <==> album.id == track.parentId
  {
    if TitleTarget(album) == TitleTarget(track) {
      var p := "/albums/";
      assert TitleTarget(album)[|p|..] == IntToString(album.id);
      assert TitleTarget(track)[|p|..] == IntToString(track.parentId);
      IntToStringInjective(album.id, track.parentId);
    }
  }

  /** An album's second-line link and a track's lead to the same artist
      exactly when the album's artist is the track's album artist. */
  lemma AlbumAndTrackSubtitlesAgree(album: SearchResult, track: SearchResult)
    requires album.AlbumResult? && track.TrackResult?
    ensures SubtitleTarget(album) == SubtitleTarget(track) <==> album.parentId == track.grandparentId
  {
    if SubtitleTarget(album) == SubtitleTarget(track) {
      var p := "/artists/";
      assert SubtitleTarget(album)[|p|..] == IntToString(album.parentId);
      assert SubtitleTarget(track)[|p|..] == IntToString(track.grandparentId);
      IntToStringInjective(album.parentId, track.grandparentId);
    }
  }

  /** The card background: the palette's light-vibrant colour (the default
      palette's when there is an error or no palette) with alpha '66' in
      light mode and 'e6' otherwise. */
  function BackgroundColor(colorMode: Option<string>, isError: bool, paletteVibrant: Option<string>,
                           defaultVibrant: string): (c: string)
    ensures var base := if isError || paletteVibrant.None? then defaultVibrant else paletteVibrant.value;
            c == base + (if colorMode == Some("light") then "66" else "e6")
  {
    if isError || paletteVibrant.None? then
      (if colorMode == Some("light") then defaultVibrant + "66" else defaultVibrant + "e6")
    else
      (if colorMode == Some("light") then paletteVibrant.value + "66" else paletteVibrant.value + "e6")
  }

  /** The colour always ends in a two-character alpha suffix after the base colour. */
  lemma BackgroundAlphaSuffix(colorMode: Option<string>, isError: bool, paletteVibrant: Option<string>,
                              defaultVibrant: string)
    ensures var c := BackgroundColor(colorMode, isError, paletteVibrant, defaultVibrant);
            |c| >= 2 && c[|c| - 2..] == (if colorMode == Some("light") then "66" else "e6")
  {
  }
}
