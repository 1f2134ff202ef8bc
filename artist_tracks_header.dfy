/** The sort chip and menu of an artist's all-tracks page
    (src/routes/artist/subroutes/artist-tracks/Header.tsx). The sort is a
    string "<sortKey>:<order>"; choosing a menu entry rewrites it. */
module ArtistTracksHeader {
  import opened Wrappers
  import opened Text
  import opened MenuStates

  /** A menu entry: its label and the sort key it selects. */
  datatype SortOption = SortOption(caption: string, sortKey: string)

  /** The labels of the ten menu entries, in menu order. */
  const SortLabels: seq<string> := ["Album", "Artist", "Date Added", "Duration", "Last Played",
                                    "Playcount", "Popularity", "Rating", "Release Date", "Title"]

  /** The menu, given the values of the ten PlexSortKeys members in the same
      order as SortLabels (ALBUM_TITLE, ARTIST_TITLE, ADDED_AT, DURATION,
      LAST_PLAYED, PLAYCOUNT, POPULARITY, RATING, RELEASE_DATE, TRACK_TITLE). */
  function SortOptions(keys: seq<string>): (opts: seq<SortOption>)
    requires |keys| == |SortLabels|
    ensures |opts| == |SortLabels|
    ensures forall k :: 0 <= k < |opts| ==> opts[k] == SortOption(SortLabels[k], keys[k])
  {
    seq(|keys|, k requires 0 <= k < |keys| => SortOption(SortLabels[k], keys[k]))
  }

  /** `sort.split(':')[0]`. */
  function SortBy(sort: string): string {
    Split(sort, ':')[0]
  }

  /** `sort.split(':')[1]`, undefined when the string has no ':'. */
  function SortOrder(sort: string): Option<string> {
    var parts := Split(sort, ':');
    if |parts| > 1 then Some(parts[1]) else None
  }

  /** handleSort: the sort string passed to setSort when `sortKey` is chosen.
      Choosing the current key flips the order (asc -> desc, anything else ->
      asc); choosing another key keeps the order; the result is always
      `key:order` for the chosen key. An undefined order joins as the empty
      string. */
  function HandleSort(sort: string, sortKey: string): (r: string)
    ensures SortBy(sort) == sortKey ==>
              r == sortKey + ":" + (if SortOrder(sort) == Some("asc") then "desc" else "asc")
    ensures SortBy(sort) != sortKey ==> r == sortKey + ":" + SortOrder(sort).GetOr("")
  {
    var current, order := SortBy(sort), SortOrder(sort);
    if current == sortKey then
      var flipped := if order == Some("asc") then "desc" else "asc";
      JoinPair(current, ":", flipped);
      Join([current, flipped], ":")
    else
      JoinPair(sortKey, ":", order.GetOr(""));
      Join([sortKey, order.GetOr("")], ":")
  }

  /** Read back, the new sort string has the chosen key and the new order. */
  lemma {:induction false} HandleSortReadBack(sort: string, sortKey: string)
    requires ':' !in sortKey
    ensures SortBy(HandleSort(sort, sortKey)) == sortKey
    ensures SortBy(sort) == sortKey ==>
              SortOrder(HandleSort(sort, sortKey)) == Some(if SortOrder(sort) == Some("asc") then "desc" else "asc")
    ensures SortBy(sort) != sortKey ==>
              SortOrder(HandleSort(sort, sortKey)) == Some(SortOrder(sort).GetOr(""))
  {
    var parts := Split(sort, ':');
    var newOrder := if SortBy(sort) == sortKey
                    then (if SortOrder(sort) == Some("asc") then "desc" else "asc")
                    else SortOrder(sort).GetOr("");
    assert ':' !in newOrder by {
      if SortBy(sort) != sortKey && |parts| > 1 {
        assert ':' !in parts[1];
      }
    }
    SplitPair(sortKey, ':', newOrder);
  }

  /** Choosing the current key twice restores the original `key:asc` or `key:desc`. */
  lemma {:induction false} HandleSortTwice(sortKey: string, order: string)
    requires ':' !in sortKey
    requires order == "asc" || order == "desc"
    ensures HandleSort(HandleSort(sortKey + ":" + order, sortKey), sortKey) == sortKey + ":" + order
  {
    SplitPair(sortKey, ':', order);
    var flipped := if order == "asc" then "desc" else "asc";
    assert HandleSort(sortKey + ":" + order, sortKey) == sortKey + ":" + flipped;
    SplitPair(sortKey, ':', flipped);
  }

  /** No option before position k has the given key. */
  predicate NoneBefore(options: seq<SortOption>, k: int, sortKey: string)
    requires 0 <= k <= |options|
  {
    forall j :: 0 <= j < k ==> options[j].sortKey != sortKey
  }

  /** Array.prototype.find: the first option with the given key. */
  function FindOption(options: seq<SortOption>, sortKey: string): (r: Option<SortOption>)
    ensures r.Some? <==> exists k :: 0 <= k < |options| && options[k].sortKey == sortKey
    ensures r.Some? ==> exists k :: 0 <= k < |options| && options[k] == r.value
                                   && r.value.sortKey == sortKey && NoneBefore(options, k, sortKey)
  {
    if options == [] then None
    else if options[0].sortKey == sortKey then
      assert NoneBefore(options, 0, sortKey);
      Some(options[0])
    else
      var r := FindOption(options[1..], sortKey);
      if r.Some? then
        var k :| 0 <= k < |options[1..]| && options[1..][k] == r.value
                 && r.value.sortKey == sortKey && NoneBefore(options[1..], k, sortKey);
        assert options[k + 1] == r.value && NoneBefore(options, k + 1, sortKey);
        r
      else
        r
  }

  /** The chip's label: that of the first option whose key is the sort's key part. */
  function ChipLabel(options: seq<SortOption>, sort: string): (r: Option<string>)
    ensures r.Some? <==> exists k :: 0 <= k < |options| && options[k].sortKey == SortBy(sort)
    ensures r.Some? ==> exists k :: 0 <= k < |options| && options[k].caption == r.value
                                   && options[k].sortKey == SortBy(sort) && NoneBefore(options, k, SortBy(sort))
  {
    match FindOption(options, SortBy(sort))
    case Some(o) => Some(o.caption)
    case None => None
  }

  /** The chip's arrow points up exactly for ascending order, which needs an
      order part after a ':'. */
  function ChipArrowUp(sort: string): (up: bool)
    ensures up <==> SortOrder(sort) == Some("asc")
    ensures up ==> ':' in sort
  {
    SortOrder(sort) == Some("asc")
  }

  /** The menu marks the entry of the current key; its arrow points up
      exactly for descending order (the direction a click would switch to). */
  function MenuArrowUp(option: SortOption, sort: string): (up: Option<bool>)
    ensures up.Some? <==> option.sortKey == SortBy(sort)
    ensures up.Some? ==> (up.value <==> SortOrder(sort) == Some("desc"))
    ensures up == Some(true) ==> !ChipArrowUp(sort)
  {
    if option.sortKey == SortBy(sort) then Some(SortOrder(sort) == Some("desc")) else None
  }

  /** Once an entry has been chosen, the chip shows that entry's label, and
      its arrow points up exactly when the new order is ascending: for the
      current key when the old order was not, for another key when it was. */
  lemma ChipAfterChoice(options: seq<SortOption>, k: nat, sort: string)
    requires k < |options| && ':' !in options[k].sortKey
    requires forall j :: 0 <= j < k ==> options[j].sortKey != options[k].sortKey
    ensures ChipLabel(options, HandleSort(sort, options[k].sortKey)) == Some(options[k].caption)
    ensures SortBy(sort) == options[k].sortKey ==>
              (ChipArrowUp(HandleSort(sort, options[k].sortKey)) <==> SortOrder(sort) != Some("asc"))
    ensures SortBy(sort) != options[k].sortKey ==>
              (ChipArrowUp(HandleSort(sort, options[k].sortKey)) <==> SortOrder(sort) == Some("asc"))
  {
    HandleSortReadBack(sort, options[k].sortKey);
    FindOptionFirst(options, k);
  }

  /** The up arrow in the menu foretells the chip: choosing the marked entry
      when its arrow points up leaves the chip's arrow pointing up, and from
      an ascending sort both the menu's and the new chip's arrows point down. */
  lemma MenuArrowForetellsChip(option: SortOption, sort: string)
    requires ':' !in option.sortKey && option.sortKey == SortBy(sort)
    ensures MenuArrowUp(option, sort) == Some(true) ==> ChipArrowUp(HandleSort(sort, option.sortKey))
    ensures SortOrder(sort) == Some("asc") ==>
              MenuArrowUp(option, sort) == Some(false) && !ChipArrowUp(HandleSort(sort, option.sortKey))
  {
    HandleSortReadBack(sort, option.sortKey);
  }

  lemma {:induction false} FindOptionFirst(options: seq<SortOption>, k: nat)
    requires k < |options|
    requires forall j :: 0 <= j < k ==> options[j].sortKey != options[k].sortKey
    ensures FindOption(options, options[k].sortKey) == Some(options[k])
    decreases k
  {
    if k > 0 {
      FindOptionFirst(options[1..], k - 1);
    }
  }

  /** The chip's click handler: open when no state is known yet, close when
      not closed, otherwise open. Result: the argument to toggleMenu. */
  function ChipClickOpens(state: Option<MenuState>): (opens: bool)
    ensures opens <==> state.None? || state == Some(Closed)
  {
    if state.None? then true
    else if state != Some(Closed) then false
    else true
  }
}
