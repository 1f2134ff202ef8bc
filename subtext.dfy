/** The "artist — album" line under a track title
    (src/components/subtext/Subtext.tsx). */
module Subtext {
  import opened Wrappers
  import opened Text

  datatype Track = Track(grandparentId: int, grandparentTitle: string, originalTitle: Option<string>,
                         parentId: int, parentTitle: string)

  datatype Piece = Link(to: string, text: string) | Separator(text: string)

  /** The artist shown: the track's own artist when set, else the album artist. */
  function ArtistLabel(t: Track): (s: string)
    ensures Present(t.originalTitle) ==> s == t.originalTitle.value
    ensures !Present(t.originalTitle) ==> s == t.grandparentTitle
  {
    if Present(t.originalTitle) then t.originalTitle.value else t.grandparentTitle
  }

  /** What the line renders: the artist link, then (with showAlbum) the
      separator and the album link. */
  function Pieces(t: Track, showAlbum: bool): (p: seq<Piece>)
    ensures |p| == if showAlbum then 3 else 1
    ensures p[0] == Link("/artists/" + IntToString(t.grandparentId), ArtistLabel(t))
    ensures showAlbum ==> p[1] == Separator(" — ") && p[2] == Link("/albums/" + IntToString(t.parentId), t.parentTitle)
  {
    [Link("/artists/" + IntToString(t.grandparentId), ArtistLabel(t))]
    + (if showAlbum then [Separator(" — "), Link("/albums/" + IntToString(t.parentId), t.parentTitle)] else [])
  }

  /** The separator appears exactly when the album does. */
  lemma SeparatorIffAlbum(t: Track, showAlbum: bool)
    ensures Separator(" — ") in Pieces(t, showAlbum) <==> showAlbum
  {
  }

  datatype LinkStyle = PointerEventsNone | NoStyle

  /** An active link ignores pointer events; an inactive one has no extra style. */
  function StyleFor(isActive: bool): (s: LinkStyle)
    ensures s == PointerEventsNone <==> isActive
  {
    if isActive then PointerEventsNone else NoStyle
  }
}
