/** A row of the charts table (src/routes/charts/Row.tsx): its playing and
    selection flags, its displayed number, the call a double click makes,
    and the hover index it records. */
module ChartRow {
  import opened Wrappers
  import Playback

  datatype RowFlags = RowFlags(playing: bool, selected: bool, selUp: bool, selDown: bool)

  /** The row's flags. `nowPlayingTrackId` is the track id of the now-playing
      queue item, absent when nothing plays. */
  function Flags(nowPlayingTrackId: Option<int>, trackId: int, index: int, selectedRows: seq<int>): (f: RowFlags)
    ensures f.playing <==> nowPlayingTrackId == Some(trackId)
    ensures f.selected <==> index in selectedRows
    ensures f.selUp <==> index in selectedRows && index - 1 in selectedRows
    ensures f.selDown <==> index in selectedRows && index + 1 in selectedRows
  {
    var selected := index in selectedRows;
    RowFlags(nowPlayingTrackId.Some? && nowPlayingTrackId.value == trackId,
             selected, selected && index - 1 in selectedRows, selected && index + 1 in selectedRows)
  }

  /** Neighbouring rows agree: a row is joined below exactly when the next row
      is joined above. */
  lemma NeighbourFlagsAgree(np: Option<int>, t1: int, t2: int, i: int, selectedRows: seq<int>)
    ensures Flags(np, t1, i, selectedRows).selDown == Flags(np, t2, i + 1, selectedRows).selUp
  {
  }

  /** The number shown for the row: one-based. */
  function DisplayIndex(index: nat): (n: nat)
    ensures n >= 1 && n - 1 == index
  {
    index + 1
  }

  /** A double click plays the chart's URI unshuffled, starting at this track. */
  function DoubleClickCall(ctx: Playback.Context, chartUri: string, trackKey: string): (d: Playback.Dispatch)
    ensures d.StartQueue? && !d.shuffle && d.startKey == Some(trackKey)
    ensures d.uri == Playback.LibraryUri(ctx.accountIdentifier, chartUri)
  {
    Playback.PlayUriCall(ctx, chartUri, false, trackKey)
  }

  /** The table's shared `hoverIndex` ref, written by the row under the mouse. */
  class HoverIndex {
    var current: Option<int>

    constructor ()
      ensures current == None
    {
      current := None;
    }

    /** handleMouseEnter. */
    method MouseEnter(index: int)
      modifies this
      ensures current == Some(index)
    {
      current := Some(index);
    }
  }
}
