/** An artist card (src/components/artist/ArtistCard.tsx): whether its
    context menu targets it, its subtitle (two genres for an artist, a play
    count for a genre preview) and its selected look. */
module ArtistCard {
  import opened Wrappers
  import opened Text

  /** The card shows either a full artist or an artist preview from a genre page. */
  datatype CardArtist =
    | FullArtist(id: int, genres: seq<string>)
    | Preview(id: int, viewCount: Option<int>)

  /** menuOpen: the menu's targets are not empty and one of them is this artist. */
  function MenuOpen(menuTargetIds: seq<int>, artistId: int): (open: bool)
    ensures open <==> artistId in menuTargetIds
  {
    |menuTargetIds| > 0 && artistId in menuTargetIds
  }

  /** The genre subtitle as rendered pieces: the first two genre tags,
      lowercased, each but the last followed by ", ". */
  function GenrePieces(genres: seq<string>): (pieces: seq<string>)
    ensures |pieces| == if |genres| < 2 then |genres| else 2
    ensures forall k :: 0 <= k < |pieces| ==>
              pieces[k] == Lower(genres[k]) + (if k != |pieces| - 1 then ", " else "")
  {
    var shown := if |genres| < 2 then genres else genres[..2];
    seq(|shown|, i requires 0 <= i < |shown| => Lower(shown[i]) + (if i != |shown| - 1 then ", " else ""))
  }

  function Concat(pieces: seq<string>): string {
    if pieces == [] then "" else pieces[0] + Concat(pieces[1..])
  }

  /** Read as text, the genre subtitle is the (at most two) lowercased genres
      joined by ", ", with no separator after the last. */
  lemma GenreSubtitleText(genres: seq<string>)
    ensures Concat(GenrePieces(genres)) == Join(seq(if |genres| < 2 then |genres| else 2,
                                                     k requires 0 <= k < |genres| && k < 2 => Lower(genres[k])), ", ")
  {
    var p := GenrePieces(genres);
    var lowered := seq(if |genres| < 2 then |genres| else 2,
                       k requires 0 <= k < |genres| && k < 2 => Lower(genres[k]));
    if |p| == 1 {
      assert p[1..] == [];
      assert Concat(p) == Lower(genres[0]);
    } else if |p| == 2 {
      assert p[0] == Lower(genres[0]) + ", ";
      assert p[1] == Lower(genres[1]) + "" == Lower(genres[1]);
      assert p[1..][1..] == [];
      assert Concat(p[1..]) == p[1];
      assert Concat(p) == Lower(genres[0]) + ", " + Lower(genres[1]);
      JoinPair(Lower(genres[0]), ", ", Lower(genres[1]));
      assert lowered == [Lower(genres[0]), Lower(genres[1])];
    }
  }

  /** The preview subtitle: "N plays in genre", "N play in genre", or
      "unplayed" when the count is 0 or missing. */
  function ViewCountText(viewCount: Option<int>): (t: string)
    ensures t == "unplayed" <==> viewCount.None? || viewCount == Some(0)
  {
    match viewCount
    case None => "unplayed"
    case Some(n) =>
      if n == 0 then "unplayed"
      else
        var c := IntToString(n);
        assert c[0] == '-' || IsDigit(c[0]);
        c + " " + (if n > 1 then "plays in genre" else "play in genre")
  }

  /** The count's plural form appears exactly for more than one play. */
  lemma ViewCountPlural(n: int)
    requires n != 0
    ensures var s := IntToString(n) + " ";
            ViewCountText(Some(n))[..|s|] == s
            && ViewCountText(Some(n))[|s|..] == (if n > 1 then "plays in genre" else "play in genre")
  {
  }

  /** The subtitle the card renders: genre pieces for an artist, a single
      piece for a preview. */
  function Subtitle(a: CardArtist): (pieces: seq<string>)
    ensures a.Preview? ==> pieces == [ViewCountText(a.viewCount)]
    ensures a.FullArtist? ==> pieces == GenrePieces(a.genres) && |pieces| <= 2
  {
    match a
    case FullArtist(_, genres) => GenrePieces(genres)
    case Preview(_, viewCount) => [ViewCountText(viewCount)]
  }

  datatype CardLook = CardLook(selectedBackground: bool, hoverMotion: bool)

  /** The card is drawn selected, and its image stops moving on hover, in
      exactly the same case: the card is open or its menu targets it. */
  function Look(open: bool, menuOpen: bool): (l: CardLook)
    ensures l.selectedBackground <==> open || menuOpen
    ensures l.hoverMotion <==> !l.selectedBackground
  {
    CardLook(open || menuOpen, !(open || menuOpen))
  }

  /** The card link: `/artists/<id>`, from which the artist's id reads back. */
  function CardTarget(a: CardArtist): (to: string)
    ensures |to| > |"/artists/"| && to[..|"/artists/"|] == "/artists/"
    ensures to[|"/artists/"|..] == IntToString(a.id)
  {
    "/artists/" + IntToString(a.id)
  }

  /** Cards of distinct artists link to distinct pages. */
  lemma CardTargetInjective(a: CardArtist, b: CardArtist)
    ensures CardTarget(a) == CardTarget(b) <==> a.id == b.id
  {
    if CardTarget(a) == CardTarget(b) {
      IntToStringInjective(a.id, b.id);
    }
  }
}
