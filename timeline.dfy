/** The report `updateTimeline` sends to the server about a play-queue item:
    the item, its new status, the position in milliseconds (unknown when the
    player has none cached) and the item's track. */
module Timeline {
  import opened Wrappers

  datatype TimelineStatus = Stopped | Playing | Paused

  datatype TimelineUpdate = TimelineUpdate(itemId: int, status: TimelineStatus, time: Option<int>, trackId: int)
}
