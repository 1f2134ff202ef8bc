/** Which rows a drag of a track table carries, and when a drag may start
    (src/hooks/useTrackDragDrop.ts). */
module TrackDragDrop {
  import opened Wrappers

  /** `items[i]` for an index that may be null or out of range (`undefined`). */
  function RowAt<T>(items: seq<T>, i: Option<int>): (r: Option<T>)
    ensures r.Some? <==> i.Some? && 0 <= i.value < |items|
    ensures r.Some? ==> r.value == items[i.value]
  {
    if i.Some? && 0 <= i.value < |items| then Some(items[i.value]) else None
  }

  /** `selectedRows.includes(hoverIndex.current)`; a null index is never included. */
  predicate HoverSelected(selectedRows: seq<int>, hover: Option<int>) {
    hover.Some? && hover.value in selectedRows
  }

  /** The drag item: the hovered row alone unless it is one of several
      selected rows, in which case every selected row in selection order. */
  function DragPayload<T>(items: seq<T>, selectedRows: seq<int>, hover: Option<int>): (r: seq<Option<T>>)
    ensures !HoverSelected(selectedRows, hover) ==> r == [RowAt(items, hover)]
    ensures HoverSelected(selectedRows, hover) && |selectedRows| == 1 ==> r == [RowAt(items, hover)]
    ensures HoverSelected(selectedRows, hover) && |selectedRows| != 1 ==>
              |r| == |selectedRows|
              && forall k :: 0 <= k < |selectedRows| ==> r[k] == RowAt(items, Some(selectedRows[k]))
  {
    if !HoverSelected(selectedRows, hover) then [RowAt(items, hover)]
    else if |selectedRows| == 1 then [RowAt(items, hover)]
    else seq(|selectedRows|, k requires 0 <= k < |selectedRows| => RowAt(items, Some(selectedRows[k])))
  }

  /** The payload has one entry, or one per selected row. */
  lemma PayloadLength<T>(items: seq<T>, selectedRows: seq<int>, hover: Option<int>)
    ensures |DragPayload(items, selectedRows, hover)| == 1
            || |DragPayload(items, selectedRows, hover)| == |selectedRows|
  {
  }

  /** The hovered row is always part of what is dragged. */
  lemma PayloadHoldsHovered<T>(items: seq<T>, selectedRows: seq<int>, hover: Option<int>)
    ensures RowAt(items, hover) in DragPayload(items, selectedRows, hover)
  {
    var r := DragPayload(items, selectedRows, hover);
    if HoverSelected(selectedRows, hover) && |selectedRows| != 1 {
      var k :| 0 <= k < |selectedRows| && selectedRows[k] == hover.value;
      assert r[k] == RowAt(items, hover);
    }
  }

  /** The maximum number of selected rows a drag may start with. */
  const MaxDragRows := 10

  /** canDrag: at most ten selected rows. */
  function CanDrag(selectedRows: seq<int>): (ok: bool)
    ensures ok <==> |selectedRows| <= MaxDragRows
  {
    |selectedRows| <= MaxDragRows
  }

  /** A drag that may start carries at most ten rows. */
  lemma DraggablePayloadBounded<T>(items: seq<T>, selectedRows: seq<int>, hover: Option<int>)
    requires CanDrag(selectedRows)
    ensures |DragPayload(items, selectedRows, hover)| <= MaxDragRows
  {
  }
}
